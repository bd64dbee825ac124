# Verified model of the Kubernetes DNS backend and its fault registry

A CoreDNS backend answers cluster names from a cache of services and endpoints, and lets
DNS faults be switched on and off for chosen pods while it runs. This project models that
backend in Dafny and proves what its parts promise each other.

**Resolution.** `Parse` turns a query name into a request and back. `ServiceQuery` and
`Records` are the query path: the loops over services, endpoints, subsets, addresses and
ports are methods, each proved equal to a function built from flat maps (`Sequences`).
`Meaning` proves what a service query answers, how many answers it gives and with which error,
and that going through the name index changes nothing; `PodMeaning` the same for pod queries.
`Transfer` and `Framing` are the zone transfer and its envelopes, `Reverse` the reverse lookup.
On top of these, `Agreement` and `PortAgreement` prove that a transfer and the queries for its
owner names say the same, record kind by record kind, and `ZoneTransfer` says so of the
envelopes sent; `Reverse` proves that reverse names resolve back; `Wildcards` that wildcard
queries are unions; `NameErrors` that nothing exists beneath a missing name, and where that
fails. `HostLabel` is the IP address written as a label and read back.

**Reference accounts.** `Reference`, `ReferenceZone`, `ReferenceNames`, `ReferenceSerial` and
`ReferenceFaults` tell what is answered, transferred, noticed and faulted in terms of cached
objects, options and requests alone, with every constant written out, and prove that the
resolver, the transfer, the change detector and the registry agree with them for all inputs.

**Change propagation.** `Informer` is the delta loop over a store and its notifications.
`Serial` holds the change detector, the modification counter, and whole runs of deliveries;
`Views` shows what of an Endpoints object can reach an answer at all, and `Labels` when an
update that is not noticed can be seen, hence exactly when the serial is sound; `Renames` is a
family of runs for which it is not, and `Namespaces` says when a change of namespaces is seen.

**The fault registry.** `Registry` is the registry as a state machine over records with an
identity of their own, `RegistrySets` what a Set call does to the index pod by pod, and
`RegistryRuns` its runs: start-up, Set, Cancel, and refreshes split into a read and a write
with anything in between, and `WrittenRuns` the runs whose refreshes write as the program
does. `Judging` says exactly when every request can be judged, from the
configuration on. `ChaosRegistry` is the registry as it runs,
objects and maps updated in place; every method states its whole effect on the abstract state.

## How the system is represented

- A DNS name is the sequence of its labels, leftmost first (`Parse.TextRoundTrip` shows that
  names of dotless labels and their text are the same thing). A key is the sequence of its
  path segments: a prefix, then labels from the root down.
- Letter case is ASCII. Queries lower-case their name first.
- A snapshot lists services, endpoints, pods and namespaces; the name, IP and pod indices are
  filters over these lists by the repository's index functions. Listings keep one order, so
  results are compared as sequences; the store itself promises no order.
- The IP address parser is a parameter (`hostKind`): a host is an IPv4 address, an IPv6
  address, or no address. `Backend.WellFormed` lists all that is assumed of a snapshot: the
  port sentinels and index keys that `ToService` and `ToEndpoints` establish, single
  lower-case labels for stored names, real addresses, and that only ExternalName services
  lack a ClusterIP field and have no Endpoints.
- Set and Cancel are single steps, as their locks intend. The write of a refresh is modelled
  twice: as written, where the record's IP is assigned before it is used as the key to
  delete, and as intended, where registration is checked again and the old IP is evicted.
  The invariants of the index over runs are about the intended write. `WrittenWriteIff` and
  `WrittenRefreshIff` say exactly when the written one keeps them, and `WrittenRuns` and
  `Judging` what holds over runs of the written one.
- What the cluster answers for a pod, and the time, are parameters of each call. The
  modification stamp is a counter, since two changes within one second share a timestamp.
- `object/` is modelled from this repository's copy; `controller.go` imports the same package
  from upstream CoreDNS.

Where code and documentation differ the code is followed: the configuration documents the
scopes `inner` and `outer`, but only `all` is ever tested (`chaos.go:166`), and a configured
pod with another scope has no selector to ask, so that a request from it cannot be judged.
`Judging.SampleUnjudged` is the documented sample configuration, and
`Judging.ConfigurationJudgedIff` and `Judging.StartJudgedIff` are the exact conditions under
which this cannot happen in any run of the program as written.

## Model

| member | source | states |
|---|---|---|
| Objects.NameKeyInjective | object/service.go:29 | the index key determines name and namespace when namespaces have no dot |
| Objects.ToService | object/service.go:42-78 | the stored service field by field: port sentinel, external IPs before load balancer addresses, source cleared on request |
| Objects.StripSubset | object/endpoint.go:68-93 | each address and port of a subset is carried over, with the port sentinel |
| Objects.ToEndpoints | object/endpoint.go:60-109 | all subsets carried over; the reverse index lists exactly the subsets' addresses in order; source cleared on request |
| HostLabel.LabelRoundTripIff | kubernetes.go:325-339 | exactly which dash-free address texts survive being written as a label and decoded |
| HostLabel.AddressRoundTrip | kubernetes.go:364-369 | every IPv4 and IPv6 text comes back unchanged and neither family is mistaken for the other |
| Parse.TextRoundTrip | parse.go:38 | splitting the text of a name of dotless labels gives the labels back |
| Parse.ParseRequest | parse.go:27-92 | filling the request from the right computes the request of the labels below the zone |
| Parse.PrintParse | parse.go:28-31 | parsing the printed name of any request a name can ask for gives that request back |
| Parse.ParseCanonical | parse.go:27-100 | parsing yields only such requests, and printing then parsing is idempotent |
| Backend.DomainOfKey | xfr.go:102-108 | the key of a name below a zone denotes that name |
| ServiceQuery.CountAddresses | kubernetes.go:465-470 | the ignore-empty counter is the number of addresses listed |
| ServiceQuery.CollectEndpoints | kubernetes.go:482-510 | the endpoints loop appends exactly the contributions of the service's own endpoints |
| ServiceQuery.CollectAddresses | kubernetes.go:488-508 | the address and port loops append one answer per matching pair, in order |
| ServiceQuery.CollectClusterPorts | kubernetes.go:527-538 | a ClusterIP service answers once per matching port |
| ServiceQuery.FindServices | kubernetes.go:411-541 | the query with its memoised endpoints list and overwritten error computes the specified answers and error |
| Meaning.IndexRefinesScan | kubernetes.go:440-459 | looking up by name and namespace gives the same answers, order and error as scanning everything |
| Meaning.IndexedEndpoints | controller.go:363-376 | the endpoints index lists exactly the endpoints of the named service |
| Meaning.QueryMeaning | kubernetes.go:411-541 | a query answers exactly the declared combinations; no error with answers; without answers no error only for an empty or a wildcard service label |
| Meaning.AnswersExposed | kubernetes.go:412-459 | every answer's key belongs to a service in an exposed namespace |
| Reference.QueryAccount | kubernetes.go:411-541 | the answers to any service request, host, port, TTL and key, and its error, are exactly those of an account that names cached objects and options only |
| Reference.LabelIff | kubernetes.go:325-339 | the label of an address: its host name, else in name mode its pod, else its IP with dashes |
| Reference.LetterCase | kubernetes.go:544-552 | only the letters A to Z have another case |
| Meaning.ProductCount | object/endpoint.go:23-28 | a subset contributes the product of its matching addresses and matching ports |
| Meaning.QueryCount | kubernetes.go:450-539 | the number of answers is the sum of these products, of matching ports and of aliases |
| Records.FindPods | kubernetes.go:341-408 | the pod query in all three modes computes the specified answers and error |
| PodMeaning.PodQueryMeaning | kubernetes.go:341-408 | how many answers a pod query gives in each mode, what they are, and exactly when there is no error |
| PodMeaning.VerifiedIff | kubernetes.go:391-407 | in verified mode the answers are exactly those of cached pods with the decoded address in a requested, exposed namespace |
| PodMeaning.PodRoundTrip | kubernetes.go:364-407 | every cached pod of an exposed namespace is answered with its own address under its dashed label |
| PodMeaning.PodNameIff | kubernetes.go:364-407 | its whole name resolves to its address exactly when that is written in lower case |
| Records.Records | kubernetes.go:299-323 | the dispatch over the parsed request: apex, reverse names, hidden namespaces, pods, services |
| ReferenceNames.DispatchAccount | kubernetes.go:299-323 | which answer a name in any letter case gets, by its labels below the zone |
| ReferenceNames.RequestAccount | parse.go:27-92 | which request every sequence of labels is, and which are none |
| ReferenceNames.NamespaceNameIff | namespace.go:7-28 | the name of a namespace exists exactly when the namespaces option lists it, or lists none, and the cluster has it |
| ReferenceNames.PodAccount | kubernetes.go:341-408 | the answers to any pod request in each mode, and its error, told from cached objects and options only |
| Transfer.SRVWeightShares | xfr.go:210-238 | weights lie in 1..100, shrink with more targets, and use up the hundred as far as whole shares can |
| Transfer.CalcSRVWeight | xfr.go:210-238 | the accumulating loop and floored quotient give that weight |
| Transfer.EmitAddressRecord | xfr.go:192-208 | one A or AAAA record for an address, none otherwise, and the owner it returns |
| Transfer.EmitClusterService | xfr.go:111-139 | the records of a service with an address of its own, in order |
| Transfer.EmitEndpoint | xfr.go:152-174 | the records of one endpoint of a headless service, in order |
| Transfer.SendZone | xfr.go:98-187 | the channel receives exactly the zone's records and is closed |
| ReferenceZone.TransferAccount | xfr.go:98-187 | a record is in the transfer exactly when the account of the zone has it: addresses, aliases, and SRV records with their port numbers, targets and weights |
| ReferenceZone.TransferCount | xfr.go:98-187 | how many records are sent: none is sent twice |
| Agreement.QueryBelow | parse.go:27-92 | a query for a lower-case name under svc resolves the request its labels print |
| Agreement.TransferAddressIff | xfr.go:104-161 | exactly which address records a transfer holds |
| Agreement.ServiceNameAgreement | xfr.go:113-117 | an address is listed under a service name exactly when the query answers it, but for services hidden as empty |
| Agreement.EndpointNameAgreement | xfr.go:138-161 | an address is listed under an endpoint name exactly when the query answers it and the service is headless |
| Agreement.AliasAgreement | xfr.go:179-184 | an alias is listed under a service name exactly when the query answers with it |
| Agreement.TransferAnswered | xfr_test.go:52-100 | every address record of a transfer is answered with the same address |
| PortAgreement.QueryPort | parse.go:79-100 | the printed owner of a named port parses back to the request for that port |
| PortAgreement.TransferPortIff | xfr.go:119-174 | exactly which SRV records for named ports a transfer holds, weights included |
| PortAgreement.NamedPortAgreement | xfr.go:163-174 | a named port is listed exactly when the query for its owner answers that port at the same target, but for hidden services |
| PortAgreement.OwnPortAgreement | xfr.go:119-125 | the same for SRV records under the service's own name |
| PortAgreement.EveryRecordAnswered | xfr_test.go:52-100 | every record of a transfer is answered by the query for its owner when ignore-empty is off |
| Framing.Envelopes | xfr.go:56-70 | envelopes concatenate to the input, each charged at most the limit and started only by an overflow; the first is empty exactly when record 0 overflows alone |
| Framing.EnvelopeSize | xfr.go:56-70 | an envelope exceeds the limit by no more than its first record, and only the first can be empty |
| Framing.FlushCount | xfr.go:58-65 | flushes inside the loop, times one more than the limit, never exceed the total length |
| Framing.Transfer | xfr.go:36-70 | a transfer starts and ends with SOA around all records; an empty zone fails |
| ZoneTransfer.TransferZone | xfr.go:26-75 | the envelopes of a zone concatenate to SOA, the records sent for the zone, and SOA, cut within the limit |
| ZoneTransfer.EnvelopesAgree | xfr.go:98-161 | the envelopes carry an address under a service or endpoint name exactly when the query answers it, but for hidden and for not headless services |
| ZoneTransfer.EnvelopesAnswered | xfr_test.go:52-100 | with ignore-empty off every record in every envelope is answered by the query for its owner |
| Reverse.ServiceRecordForIP | reverse.go:32-57 | the first visible service with the address, or else every visible endpoint with it |
| ReferenceNames.ReverseAccount | reverse.go:32-57 | a reverse lookup names the first service that may be named and owns the address, or else exactly the endpoints with it |
| Reverse.EndpointPointersIff | reverse.go:41-56 | exactly which endpoint names a reverse lookup gives |
| Reverse.ReverseServiceForward | reverse.go:34-40 | a service's reverse name resolves back to the address exactly when the address is its own, its namespace exposed and it is not hidden |
| Reverse.ReverseEndpointForward | reverse.go:43-55 | an endpoint's reverse name resolves back exactly when a service of that name exists in an exposed namespace |
| Wildcards.WildcardUnion | kubernetes.go:440-475 | a wildcard query answers all that the exact queries it covers answer, and nothing else with ignore-empty off |
| Wildcards.UnionLawIff | kubernetes.go:463-475 | the union law fails exactly for requests without endpoint for a port of a selected service that is empty while the cluster is not, with ignore-empty on |
| NameErrors.NothingBeneath | kubernetes.go:299-323 | beneath a missing kind, namespace, service or pod name, and beneath a port name, nothing exists; only four labels under svc are excepted |
| NameErrors.ProtocolLevelIff | parse.go:79-85 | below a four-label svc name all names are missing exactly when no visible service of that name has a port of that protocol, wildcard service labels aside |
| NameErrors.AnyPortIff | kubernetes.go:411-541 | exactly which snapshots answer a request for any port of a protocol |
| NameErrors.PortBeneathMissing | parse.go:79-85 | the name of a protocol is missing while the port beneath it is answered |
| Informer.Processor.Process | object/informer.go:26-74 | the store is the fold of the deltas up to the first failing one, and the handlers hear exactly its notifications |
| Informer.StopsAtFirst | object/informer.go:30-70 | processing gets exactly as far as the first unconvertible addition or unreadable deletion |
| Informer.LastSay | object/informer.go:54-65 | the last delta about a key decides: what it brings is stored, what it takes away, terminating or not, is gone and announced |
| Informer.ReplayReproduces | object/informer.go:37-65 | replaying the notifications reproduces the store; additions are of absent keys and updates carry the stored object |
| Informer.LastDeltaWins | object/informer.go:30-70 | the object under a key is the one the last delta about it brought |
| Serial.SubsetsEquivalent | controller.go:451-485 | decides whether two subsets have the same addresses, host names and ports |
| Serial.EndpointsEquivalent | controller.go:489-508 | decides the same for whole Endpoints objects |
| Serial.DnsControl.Update | controller.go:418-442 | the counter moves exactly for noticed updates |
| ReferenceSerial.NoticedAccount | controller.go:418-508 | an update is noticed exactly when the version differs and, for endpoints, the addresses, host names or ports |
| ReferenceSerial.EndpointsDeltaMoves | controller.go:416-442 | how often any one delta about endpoints moves the serial |
| ReferenceSerial.ServiceDeltaMoves | controller.go:416-442 | how often any one delta about services moves the serial |
| Serial.DeliverEndpoints | controller.go:132-143 | a delivery folds the deltas into the store and moves the counter once per noticed notification |
| Labels.UnnoticedUnseenIff | controller.go:436-438 | for any address parser, an unnoticed update changes no answer of any snapshot exactly when every address keeps its published label |
| Labels.PointersTell | reverse.go:41-56 | where no service answers for an address, its label cannot change without changing the reverse lookup |
| Serial.SerialSound | controller.go:416-508 | after any run that never moves the serial, every query, transfer and reverse lookup answers as before, if no label changes unnoticed |
| Labels.SerialSoundIff | controller.go:416-508 | for any address parser, the serial is sound for all runs exactly when no object changes a published label unnoticed: always when endpoints are not named after pods |
| Namespaces.NamespacesSeenIff | controller.go:145-152 | a change of the cluster's namespaces, which never moves the serial, changes some answer exactly when it adds or removes one the namespaces option admits |
| Views.VisibleDecides | kubernetes.go:325-339 | answers depend on endpoints only through addresses, host names, ports and published pod names |
| Renames.RenameRun | controller.go:451-471 | delivering the replacement of the pod behind an address is a run that does not move the serial |
| Renames.RenameUnsound | controller.go:416-508 | over that run the old pod's name ceases to exist |
| Renames.OldNameAnswered | kubernetes.go:329-331 | before the replacement the old pod's name is answered |
| Renames.OldNameMissing | kubernetes.go:329-331 | after it the name is missing |
| Registry.SetKeeps | grpc_server.go:42-108 | a Set keeps the registry invariant, also when it fails part-way |
| Registry.CancelKeeps | grpc_server.go:111-146 | a Cancel keeps the invariant and a complete index, and removes exactly the pods its request lists |
| Registry.EvictingWriteKeeps | chaos.go:143-151 | the refresh write as intended keeps the invariant at any moment |
| Registry.WrittenWriteIff | chaos.go:144-150 | exactly when the write as written keeps the invariant |
| Registry.WrittenRefreshIff | chaos.go:126-158 | without interleaving, the written refresh breaks the invariant exactly when it writes |
| Registry.StaleEntry | chaos.go:145-149 | after it the old IP leads to a record that has moved away |
| Registry.LookupIsSearch | chaos.go:129 | with a complete index, lookup by IP finds what a search of the registered pods finds |
| Registry.RegisterCompleteIff | grpc_server.go:81-102 | registering a pod keeps the index complete exactly when no other registered pod has the IP |
| Registry.EvictingWriteCompleteIff | chaos.go:143-151 | a refresh keeps it complete under exactly the same condition |
| RegistrySets.SetLeavesOthers | grpc_server.go:74-103 | Set leaves the lookup of every pod it does not list as it was |
| ReferenceFaults.SetProgress | grpc_server.go:48-103 | how many pods a Set reaches, when it succeeds, and that its request is recorded in any case |
| ReferenceFaults.SetRecords | grpc_server.go:50-103 | each pod a Set reached is registered with the request's action, scope, selector, reported IP and time |
| ReferenceFaults.SetFaults | chaos.go:161-181 | requests from such a pod are faulted for every host without patterns, and for those the selector accepts with them |
| ReferenceFaults.SetLeads | grpc_server.go:85-102 | the reported IP leads to the pod, when IPs are not shared |
| ReferenceFaults.RefreshAccount | chaos.go:126-158 | exactly when a lookup is refreshed, and all that a refresh changes |
| ReferenceFaults.RestsAfterLookup | chaos.go:43-51 | no record is refreshed within ten seconds of being looked up |
| ReferenceFaults.SeedStamps | kubernetes.go:281-293 | start-up counts as a look-up of every pod it visits |
| Registry.CancelLeavesOthers | grpc_server.go:122-129 | Cancel leaves the lookup of every pod its request does not list as it was |
| Registry.SetCoveredIff | grpc_server.go:48-103 | a Set keeps every pod listed by a live request exactly when it re-lists those only the replaced request listed |
| Registry.QuiescentEmpty | grpc_server.go:131-141 | if all pods are listed and no request lives, no pod and no IP is left |
| RegistryRuns.SeedKeeps | kubernetes.go:281-293 | start-up keeps the invariant, also when it stops part-way |
| RegistryRuns.SeedCompleteIff | kubernetes.go:281-293 | once all pods are seeded the index is complete exactly when no two share an IP |
| RegistryRuns.RunKeeps | chaos.go:126-158 | the invariant holds after every run, however both phases of refreshes, Sets and Cancels interleave |
| RegistryRuns.RunComplete | grpc_server.go:85-128 | if IPs are never shared, the index stays the exact inverse of the recorded IPs |
| RegistryRuns.RunCovered | grpc_server.go:74-141 | with the intended refresh nothing leaks: when the last request is cancelled no pod and no IP is left, even after partial failures |
| WrittenRuns.WrittenRunKeeps | chaos.go:143-151 | what every run keeps with the refresh as written: registered pods under their own keys, no empty namespace, known records only |
| WrittenRuns.WrittenRunCovered | grpc_server.go:74-141 | with the refresh as written no pod leaks: when the last request is cancelled none is left |
| WrittenRuns.IndexAfterLastCancel | chaos.go:143-151 | cancelling the only request after a refresh as written empties the index exactly when the refresh wrote nothing; otherwise the old IP still leads to the cancelled record |
| Judging.StillFaulted | chaos.go:126-170 | requests from that IP are still judged as before the cancel, though nothing is registered |
| Judging.RunArmed | chaos.go:161-181 | no run adds or removes a record that cannot be asked |
| Judging.WrittenJudgedIff | chaos.go:126-170 | with the refresh as written, every request of every run can be judged exactly when the records indexed, and those being refreshed, can be asked |
| Judging.AlwaysJudgedIff | chaos.go:126-170 | with the intended refresh, of those being refreshed only the registered ones matter |
| Judging.ReplacedPending | chaos.go:143-170 | a record replaced by a Set during its refresh tells the two apart: only as written does it become one that cannot be asked |
| Judging.SeedVisits | kubernetes.go:281-293 | start-up indexes under each reported IP the last pod visited with it |
| Judging.StartJudgedIff | chaos.go:161-170 | from start-up on every request of every run can be judged, with either write, exactly when every pod that holds its IP has scope all |
| Judging.ConfigurationJudgedIff | setup.go:297-314 | with the refresh as written, a configuration is safe however the cluster answers exactly when all its scopes are all |
| Judging.SampleUnjudged | setup.go:292-314 | with the documented sample configuration a request finds a record that cannot be asked |
| RegistryRuns.WriteAfterCancel | chaos.go:135-151 | a cancel between read and write makes the written refresh index a cancelled record; the intended one does nothing |
| RegistryRuns.WriteAfterSet | chaos.go:135-151 | the same when the pod is set again in between |
| ChaosRegistry.SeedOutcome | kubernetes.go:281-293 | what start-up leaves, whether it finishes or not |
| ChaosRegistry.Kubernetes.SetDNSChaos | grpc_server.go:42-108 | the maps after the call are the state machine's, with new records, and success is reported exactly when all pods were reached |
| ChaosRegistry.Kubernetes.CancelDNSChaos | grpc_server.go:111-146 | the maps after the call are the state machine's |
| ChaosRegistry.Kubernetes.PruneNamespaces | grpc_server.go:131-139 | exactly the empty namespaces are removed |
| ChaosRegistry.Kubernetes.GetChaosPod | chaos.go:126-158 | the lookup as written: its result, its error, and its whole effect |
| ChaosRegistry.Kubernetes.GetChaosPodEvicting | chaos.go:126-158 | the same with the intended write |
| ChaosRegistry.Kubernetes.InitKubeCache | kubernetes.go:281-293 | start-up visits pods in some order until the cluster fails to answer, with exactly the seeded state as result |
| ChaosRegistry.PodInfo.IsOverdue | chaos.go:43-51 | overdue exactly after more than ten seconds |

## Left out

- SetDNSChaos: building the pattern selector is one result, a selector or a failure; the trie and its pattern syntax are not part of this model.
- SetDNSChaos: Set and Cancel are atomic, which the locks intend; the value receivers copy the lock, and what data races that allows is not modelled.
- GetChaosPod: the comparison with the record's IP outside the lock is part of the read; only the write is a separate step.
- SerialSound: covers service and endpoints deliveries; namespace events never move the serial (see NamespacesSeenIff), and pod events always do unless the version is unchanged.
- CalcSRVWeight: exact rationals instead of floating point; for an empty subset, whose weight is never used, any positive 16-bit value.
- ToEndpoints: deep copies and the copy without subsets are not modelled.
- FindServices: the nested loops are split into one method per level that returns what it appends; the lists are read through filters, not through the store's own index structures.
- WildcardUnion: answers are compared as sets, since the store promises no order.
- ReverseServiceForward: supposes at most one service per name and namespace, which the store's key guarantees.
- Envelopes: the record length function is a parameter, and the channel to the writer is the returned list of envelopes.
- Checking who may transfer, SOA construction, and writing responses.
- TXT, NS, apex and default name server answers, and the variant for external addresses.
- Fault responses themselves: random addresses and error codes.
- Autopath, metadata, metrics, readiness, logging, configuration parsing, the gRPC server and watch functions.
- Namespace lookup by listing is a membership test; label selectors are applied before objects reach the caches.
