# eggdfs: membership, replication and content index, modelled and proved in Dafny

eggdfs is a small replicated file store. One tracker keeps a registry of groups and storage
nodes, routes uploads and downloads, and drives replication with a durable log of failed
syncs. Each storage node keeps files and an index from content digest to file, used to answer
an upload of known content at once. This project models these parts and proves what they keep
over every run, and exactly where the code falls short of what it sets out to do.

Check everything with `dafny verify dfyconfig.toml`.

## How the model is laid out

| file | what it holds |
|---|---|
| `Lib.dfy`, `Order.dfy` | options; byte order on strings, sorting and sorted listings |
| `Names.dfy` | file names, paths, addresses, URLs and log keys |
| `EggDBs.dfy` | the durable map, as a class |
| `Membership.dfy`, `MembershipRuns.dfy` | registry as a value: report, sweep, proxy failure; invariants and exact history over every run |
| `Groups.dfy`, `Trackers.dfy` | `StorageServer`, `Group` and `Tracker` as classes on the heap; every method equals a step on the value |
| `Routing.dfy` | choice of group and storage |
| `Nodes.dfy`, `Storages.dfy` | a storage node as a value and as a class; soundness of its index |
| `Replication.dfy`, `Repairs.dfy` | sync messages, one POST, the sync log, one repair pass |
| `Protocol.dfy`, `ProtocolInv.dfy` | the whole cluster as a state machine and its invariant |
| `Conservation.dfy`, `Contents.dfy`, `FirstSyncs.dfy`, `Copies.dfy`, `Guarantees.dfy`, `ClusterRepairs.dfy`, `Indexes.dfy`, `Records.dfy`, `Captured.dfy` | what holds over every run of the cluster |
| `Loss.dfy`, `LogRuns.dfy`, `LogTruth.dfy`, `Accounts.dfy` | exactly when the log accounts for a destination or a delete, and when an empty log tells the truth |
| `Reachable.dfy`, `Mishaps.dfy` | runs from the start that show where it goes wrong |
| `Refinement.dfy` | the tracker's methods as runs of the cluster |

Objects the Go code updates in place are classes with their fields (`Tracker`, `Group`,
`StorageServer`, `Storage`, `EggDB`); ghost fields `State` and `Model` carry the value a class
stands for. Loops over Go maps visit their keys in an arbitrary order.

In the cluster a status report is one step (it runs under `t.lock`). An upload is routed, saved
on its node and answered in three steps, and its answer may be lost or torn off after the save; a
sync is sent, delivered and answered in three steps, any of which may be lost. A sync holds on to
the storage object it was started with, as the goroutine does, and is sent or skipped by the
status it sees there. Uploads go only where the tracker routes them. Repair tries only entries
whose storages its lookup finds Active; the field `mode` of a cluster says whether that lookup is
by URL, as written, or by address. A step that cannot happen changes nothing, so every list of
steps is a run.

Inputs of the model are: both clock readings of a report (in any order), the date, the ids
drawn, the client's hash, a "fate" for each disk or network action that may fail, and the body
a node's web server answers for a file it does not have. MD5 is any function from bytes to
non-empty strings; ids are decimal and never drawn twice. A string stands for its bytes.

## What the code does, against its comments

The model follows the code; where the code misses its own aim, a lemma says exactly when.

* The sort by capacity compares an element with itself (`svc/tracker.go:254`), so any Active
  group may be chosen: `Routing.AsWrittenMayChooseAnyActive`, `Routing.AsWrittenOptimalIff`.
  With the comparator of the comments the largest one is: `Routing.DescendingChoosesLargest`.
* Repair looks storages up by URL while they are filed by address (`svc/tracker.go:95`), and
  reads a field of the missing storage: `Repairs.AsWrittenNeverRepairs`,
  `ClusterRepairs.RepairAsWritten`. What repair achieves is proved for lookups by address, with a
  source needed only by ADD entries.
* The log key has no destination (`svc/tracker.go:339`), so two failed destinations of one file
  share an entry; each is accounted for by itself exactly in groups of at most two storages:
  `Loss.ExactIffTwoStorages`. As long as repair never drops an entry, as in the code as written,
  a destination for which nothing is under way holds the file, byte for byte. Once repair works by
  address, that is so in groups of at most two storages as long as no copy is cut off
  (`LogTruth.LogTellsIff`, `Reachable.SomeRunForgets`). With cut-off copies it is so only for
  files without a destination: a late request may truncate a replica that a repair has brought,
  and nobody notices (`LogTruth.LogTellsCutIff`, `Reachable.SomeRunSpoils`). A logged delete is
  accounted for by itself for good only once its repair is acknowledged: `Accounts.DeleteExactIff`.
* As written, the next repair tick also ends the tracker's process if and only if the group of
  some log entry is registered: `Refinement.TickAsWritten`.
* A fetch does not look at the status of the answer (`svc/storage.go:287`) and its URL is not
  escaped (`svc/storage.go:285`): `Guarantees.FetchExactIff`, `Nodes.AddSoundIff`. After a delete
  the page for a missing file may be stored and acknowledged as the file:
  `Guarantees.MissingSourceDelivers`, `Reachable.SomeRunKeepsPage`, unless that page is empty:
  `Guarantees.EmptyPageNeverConfirms`. A name with a question mark may bring
  that page even before: `Mishaps.SomeRunMangles`.
* When the answer to an upload is lost after the save, the file stays on its node alone, with no
  sync and no log entry (`svc/tracker_proxy.go:63`, `svc/tracker.go:299`):
  `Contents.StoredFileDuties`, `Mishaps.SomeRunOrphans`.
* A delete that carries another digest than the file's leaves an entry for a file that is gone
  (`svc/storage.go:354`): `Mishaps.SomeRunBreaksIndex`. Every index stays sound throughout a run if
  and only if every delivery of it meets a stated condition: `Indexes.RunSoundIff`.
* A copy of length zero counts as a failure (`svc/storage.go:313`), so an empty file never
  leaves the log: `Repairs.EmptyFileStaysLogged`, `Contents.EmptyNeverReplicated`.
* An index entry made by a sync has the directory in `Path`, one made by an upload the whole
  path (`svc/storage.go:140`, `svc/storage.go:328`); the index is therefore stated through `Url`.
* A binding error of a report is logged and ignored (`svc/tracker.go:129`), so reports with
  zero free space are ordinary reports here.

## Model

| member | source | states |
|---|---|---|
| Order.SortIsCanonical | svc/group.go:36 | sorting the distinct addresses gives the one ascending list of them, whatever order the map gave them in |
| Order.SortedUnique | svc/group.go:27-41 | two ascending listings of the same addresses are equal, so a group's listing does not depend on map order |
| Order.SortSlice | svc/tracker.go:253-255 | a sort is a permutation in which no later element is less than an earlier one, for any comparator that is a strict weak order |
| Names.Ext | util/helper.go:65-67 | the extension is a slash-free suffix, from the last dot of the last path element, and empty only without such a dot |
| Names.ParseFailsWithoutSlash | util/helper.go:106-109 | the split fails exactly on a path without a slash and otherwise joins back to the path |
| Names.ParseRoundTrip | util/helper.go:106-109 | directory, slash and name split back into the two exactly when the name has no slash |
| Names.FileNameHasNoSlash | util/helper.go:65-67 | a generated name has no slash, whatever the original name |
| Names.FileNameInjective | util/helper.go:65-67 | equal generated names have equal ids and extensions, for all original names |
| Names.UploadPathParses | svc/storage.go:149 | the path an upload reports splits into its directory and its name, for every custom directory and original name |
| Names.UploadPathsNeverCollide | svc/storage.go:124-126 | uploads with different ids never share a path, on any days and for any directories and names |
| Names.FilePathParts | util/helper.go:43-58 | the directory of an upload, split at its slashes, is year, month and day and then the parts of the custom directory if there is one |
| Names.HostOfBaseUrl | svc/tracker.go:311-312 | the address can be read back from the URL in a sync message |
| Names.BaseUrlInjective | svc/tracker.go:311-312 | such a URL determines both schema and address |
| Names.EndpointInjective | svc/tracker.go:147 | different hosts or ports never share an address, for all hosts and all ports without a colon |
| Names.EndpointRoundTrip | svc/tracker.go:147 | a client that splits the address finds host and port again, IPv6 hosts included |
| Names.LogKeyInjective | svc/tracker.go:339 | a log key determines file name and action, also for names with an at sign |
| Names.AddSortsBeforeDelete | svc/tracker.go:83-84 | in iteration order the ADD entry of a name precedes its DELETE entry |
| Names.UrlSafeIff | svc/storage.go:285-287 | text put into a URL unescaped asks for itself if and only if it has no query, fragment or percent sign and no control character |
| Names.FragmentCut | svc/storage.go:285-287 | what follows a number sign is not asked for, and spoils the URL if it does not decode |
| Names.QueryApart | svc/storage.go:285-287 | what follows a question mark is not part of the path asked for, and spoils the URL if it has a control character |
| Names.EscapedRequest | svc/storage.go:285-287 | with its bytes escaped, in hexadecimal digits of either case, every name would be asked for as it is |
| EggDBs.EggDB.Put | common/model/eggdb.go:55-61 | refuses the empty key and changes nothing, else overwrites that key only |
| EggDBs.EggDB.Delete | common/model/eggdb.go:43-53 | removes exactly the given keys |
| EggDBs.EggDB.Keys | svc/tracker.go:83-84 | the iteration visits every key once in byte order |
| Membership.MinFree | svc/group.go:109-124 | the least free space: reached by a storage and below none |
| Membership.SweepTwice | svc/tracker.go:422-446 | two sweeps equal one at the later time: idempotent at a fixed time, and the order of sweeps is irrelevant |
| Membership.SweepOrderIrrelevant | svc/tracker.go:200-208 | visiting groups one by one in any order, repetitions included, gives the pointwise sweep |
| MembershipRuns.ReportHealthy | svc/tracker.go:157-180 | an accepted report from any keyed registry gives keys, capacities and statuses that all agree |
| MembershipRuns.AbortHealthy | svc/tracker_proxy.go:63-65 | a proxy failure keeps keys, the capacity rule and the one-sided status rule |
| MembershipRuns.RunHealthy | svc/tracker.go:157-180 | in every reachable registry groups and storages sit under their own names and addresses, Cap is the minimum Free of an Active group and 0 of an Unavailable one, no Unavailable group has an Active storage; after a report a group is Active exactly when it has one |
| MembershipRuns.RegisteredForever | svc/tracker_proxy.go:64-65 | a registered storage stays registered, so the proxy callback always finds it |
| MembershipRuns.RunExplained | svc/tracker.go:144-155 | a storage is registered exactly when it reported, carries its last report's stamp and space, and has exactly the status that follows since: Offline after a failed proxy, else NotEnoughSpace if that report had too little space, else Offline once a sweep came more than 50 seconds after its stamp, else Active |
| MembershipRuns.SilentStorageNotActive | svc/tracker.go:427-434 | a storage silent for more than 50 seconds at some sweep is not Active from then until its own next report, and Offline if that report had enough space |
| MembershipRuns.ActiveStorageIsFresh | svc/tracker.go:427-434 | every Active storage reported within 50 seconds of the latest sweep, with more than the minimum space |
| MembershipRuns.RegisteredIff | svc/tracker.go:133-147 | in every reachable registry a slot exists exactly if a report with group, host and port all present came for its group from a host and port that make its address |
| MembershipRuns.SlotPerEndpoint | svc/tracker.go:147-176 | storages of one group that reported from different hosts or ports have slots of their own, so the group counts at least two |
| Groups.Group.GetStorages | svc/group.go:27-41 | exactly the registered storages, strictly ascending by address, each once, none missing |
| Groups.Group.SaveOrUpdateStorage | svc/group.go:99-107 | refuses the empty address; otherwise replaces the object under its address and keeps ownership and keys |
| Groups.Group.GetGroupCap | svc/group.go:110-124 | 0 for an empty group, else the least free space; the read lock is held afterwards only when the group is empty |
| Groups.Group.SetStatus | svc/tracker.go:436-443 | status and capacity become those computed from the storages, and the read lock is free again |
| Groups.LeastIsMin | svc/group.go:120-123 | the head of the sorted free spaces is the least free space of the group |
| Trackers.Tracker.RegisterGroup | svc/tracker.go:226-236 | refuses the empty name, keeps a group already registered, adds it otherwise |
| Trackers.Tracker.GetGroups | svc/tracker.go:200-208 | every registered group, in arbitrary order, under the name it is filed under |
| Trackers.Tracker.MarkGroup | svc/tracker.go:425-435 | takes out exactly the storages that timed out and reports whether an Active one is left |
| Trackers.Tracker.SetTrackerStatus | svc/tracker.go:422-446 | for any map order the registry becomes the pointwise sweep of what it was, and the heap stays in order |
| Trackers.Tracker.StorageStatusReport | svc/tracker.go:121-181 | the registry becomes what the report step says, the report lock is free afterwards on every path, and the object the report replaces is let go with the status it had |
| Trackers.Tracker.Refresh | svc/tracker.go:157-180 | under the lock the two early returns are never taken |
| Trackers.Tracker.AbortErrorHandler | svc/tracker_proxy.go:63-65 | the one storage goes Offline and nothing else changes |
| Trackers.Tracker.SelectStorageIPHash | svc/tracker.go:184-197 | the storage depends only on the hash and the set of Active addresses; none exactly when none is Active |
| Trackers.Tracker.SelectGroupForUpload | svc/tracker.go:239-258 | none exactly when no group is Active, else a group some sort with the comparator as written may put first |
| Trackers.Tracker.SyncFile | svc/tracker.go:333-361 | nodes and log change as one sync attempt says: logged when the storage is not Active or the answer is not Success |
| Trackers.Tracker.SyncDelete | svc/tracker.go:391-412 | the same for a delete, skipping only an Offline storage |
| Trackers.Tracker.QuickUpload | svc/tracker.go:261-325 | answers, registry, nodes and started syncs: nothing without a storage; on a failed proxy the abort of the routed storage, whether or not it stored the file first; nothing more when the answer is torn off; otherwise the upload there and one ADD per other registered storage |
| Trackers.Tracker.Download | svc/tracker.go:494-517 | served by the storage the hash selects in an Active group; a failed proxy takes that storage offline and nothing else |
| Trackers.Tracker.Delete | svc/tracker.go:364-419 | one DELETE per registered storage of the group, naming the split path; the two panics are told apart |
| Trackers.Tracker.RepairSyncFail | svc/tracker.go:82-109 | one pass over a snapshot of the log in key order, stopping at the first missing storage |
| Trackers.SlotsApart | svc/group.go:99-108 | no storage object is filed under two addresses or in two groups of the registry |
| Trackers.StoredPathParses | svc/tracker.go:300-302 | the path in the upload's answer splits into the directory and name it was stored under |
| Routing.Select | svc/tracker.go:184-197 | none exactly when no storage is Active; otherwise an Active one |
| Routing.FilterIsActive | svc/tracker.go:185-190 | filtering the ascending listing gives the ascending listing of the Active addresses |
| Routing.HitsExact | svc/tracker.go:195-196 | how many of the first hash values each position gets, exactly |
| Routing.ServedIsHits | svc/tracker.go:194-196 | the storage at a position of the ascending Active listing is selected for exactly the hashes with that remainder |
| Routing.HashRoutingBalanced | svc/tracker.go:184-197 | over all 32-bit hashes every Active storage of a group is selected for the floor of an equal share, or, where the share is not whole, possibly the ceiling |
| Routing.SortedListing | svc/tracker.go:239-258 | the head of the sorted listing of Active groups is a possible choice, for any comparator that is a weak order |
| Routing.AsWrittenMayChooseAnyActive | svc/tracker.go:253-257 | as written, a group may be returned if and only if it is Active |
| Routing.AsWrittenOptimalIff | svc/tracker.go:252-257 | as written, only largest groups can be returned if and only if all Active groups have the same capacity |
| Routing.DescendingChoosesLargest | svc/tracker.go:252-257 | with the comparator of the comments only Active groups of largest capacity are returned |
| Routing.AsWrittenMayChooseSmaller | svc/tracker.go:254 | after the first reports of any two groups with unequal space the smaller one may be returned, though it is not the largest |
| Routing.UploadFindsStorageIff | svc/tracker.go:239-273 | choosing succeeds for every map order and client if and only if some group is Active and every Active group has an Active storage |
| Routing.AvailableAfterReport | svc/tracker.go:239-273 | right after a report choosing succeeds if and only if some storage somewhere is Active |
| Routing.SelectedStorageUsable | svc/tracker.go:184-197 | in every reachable registry the chosen storage is Active, registered in the chosen group, and above the minimum space |
| Storages.Storage.SaveQuickUploadedFile | svc/storage.go:167-195 | files and pending removals as the save says, for every point at which it may fail |
| Storages.Storage.QuickUpload | svc/storage.go:63-155 | node and answer as the upload says: instant hit, refusals in order, or stored and indexed |
| Storages.Storage.SyncFileAdd | svc/storage.go:271-337 | node and answer as the ADD says, for every disk and network outcome |
| Storages.Storage.SyncFileDelete | svc/storage.go:340-358 | node and answer as the DELETE says |
| Storages.Storage.RemoveDamaged | svc/storage.go:189-193 | the background removal takes away the file of an upload with a wrong digest, once, and changes nothing else |
| Nodes.UrlInjective | svc/storage.go:158-164 | a static URL determines the path |
| Nodes.UploadShape | svc/storage.go:63-155 | an upload changes at most the file of its own path; when stored, it holds the content, is not pending removal, and is indexed under its digest |
| Nodes.UploadDecides | svc/storage.go:66-133 | exactly when each answer is given: from the index if and only if the declared digest is known, with the entry stored there; each refusal in the order of the checks; stored if and only if all checks pass and the digest found is the declared one |
| Nodes.StoredInfo | svc/storage.go:125-144 | what a stored upload reports: its id, both names, URL, size, path, digest and group |
| Nodes.DeclaredDigest | svc/storage.go:187-194 | what is stored has the declared digest; content with another one is refused, not indexed, and put up for removal |
| Nodes.DamagedLeavesNothing | svc/storage.go:189-193 | once that removal has run, such an upload to an unused path has left nothing |
| Nodes.RefusedLeaves | svc/storage.go:167-195 | what every refused upload leaves on the disk: nothing, a part, or the whole content, and which of it is put up for removal |
| Nodes.InstantHit | svc/storage.go:68-80 | with a sound index an instant hit names a live file with the requested digest and changes nothing |
| Nodes.AddDecides | svc/storage.go:271-337 | exactly when an ADD is answered with each status |
| Nodes.AddEnters | svc/storage.go:321-333 | an acknowledged ADD of a file with a digest leaves the one new entry, with id, names, URL, size, directory, digest and group of the copy |
| Nodes.DeleteDecides | svc/storage.go:340-358 | a DELETE succeeds if and only if the file is absent afterwards; it takes away that file, the entry under its digest, and nothing else |
| Nodes.CollectOnce | svc/storage.go:190 | the removal takes away a damaged upload, once, and nothing else |
| Nodes.WriteSoundIff | svc/storage.go:302-319 | overwriting a file keeps a sound index sound if and only if the digest of an indexed file stays the same |
| Nodes.AddSoundIff | svc/storage.go:271-337 | a delivered ADD, whatever happens, keeps a sound index sound if and only if what it writes has the digest it is entered under and the entry naming the path stays right |
| Nodes.DeleteSoundIff | svc/storage.go:343-356 | a delivered DELETE keeps a sound index sound if and only if it carries the digest of the indexed file it removes |
| Nodes.UploadSound | svc/storage.go:122-146 | an upload to an unused path keeps the index sound, however far it gets |
| Nodes.CollectSound | svc/storage.go:189-193 | removing a damaged upload keeps the index sound |
| Nodes.SafeKeepsSound | svc/storage.go:62-358 | every operation that meets its condition keeps the index sound |
| Nodes.AddErasesEarlierAttempt | svc/storage.go:271-337 | a completed ADD leaves the same node behind whatever an earlier attempt at it did |
| Nodes.RedeliveredDelete | svc/storage.go:340-358 | after a DELETE succeeded, delivering it again answers Success and changes nothing, whatever happened at other paths since |
| Replication.FanOutComplete | svc/tracker.go:303-323 | the fan-out addresses exactly the registered storages that are not left out |
| Replication.FanOutSize | svc/tracker.go:303-323 | an upload starts one sync per registered storage but the source, all to different nodes |
| Replication.AddFanOut | svc/tracker.go:304-321 | every other registered storage gets an ADD with both URLs and with id, place, digest and group of the upload, and nobody else gets any |
| Replication.DeleteFanOut | svc/tracker.go:379-390 | every registered storage gets a DELETE with its URL and what the client sent, and nobody else gets any |
| Replication.FetchIsGet | svc/storage.go:285-287 | a fetch is the GET of source URL, group, directory and name, joined by slashes |
| Replication.UrlGets | svc/storage.go:158-164 | a static URL with a URL-safe group and path gets the file it names, or the page for a missing one |
| Replication.AttemptDecides | svc/tracker.go:333-361 | an attempt posts exactly if its destination is usable, and leaves its entry exactly if it was not acknowledged |
| Replication.ConsiderDecides | svc/tracker.go:91-95 | repair tries an entry exactly if its group is registered and both storages are found and Active (for a DELETE looked up by address, the destination), and crashes exactly on a storage not found |
| Repairs.AsWrittenNeverRepairs | svc/tracker.go:91-96 | as written a pass changes neither log nor nodes, and it crashes if and only if the group of some entry is registered |
| Repairs.AddSucceedsIff | svc/storage.go:287-336 | an ADD is acknowledged if and only if nothing fails and the source answers with a non-empty body |
| Repairs.DeliverFrame | svc/storage.go:248-265 | a delivered sync touches one file of one node |
| Repairs.SameFileOrder | svc/tracker.go:83-106 | of two entries for one file the ADD comes first |
| Repairs.PassShrinks | svc/tracker.go:82-109 | a pass only removes entries, and only those it visits |
| Repairs.RepairConverges | svc/tracker.go:82-109 | when every ADD entry is ready, one pass leaves no ADD entry and nothing new, and every logged destination holds the source's bytes, unless a DELETE of the file is logged too |
| Repairs.RepairIndexes | svc/storage.go:321-333 | such a pass leaves at every logged destination an index entry for the logged digest that names a file which is there with that digest, unless a logged DELETE for that node carries the digest or names such a file |
| Repairs.EmptyFileStaysLogged | svc/storage.go:313 | the entry of an empty file stays in the log in every pass |
| Repairs.DeleteWinsPass | svc/tracker.go:83-106 | an acknowledged DELETE leaves its destination without the file, even if an ADD of it was logged too |
| ProtocolInv.FreshPath | svc/storage.go:124-126 | a path made with a fresh id is in use on no node |
| ProtocolInv.NextInv | svc/tracker.go:261-419 | every step of the cluster keeps the invariant on registry, uploads, paths, syncs and log, and takes back no history |
| ProtocolInv.RunInv | svc/tracker.go:261-419 | the invariant holds in every reachable state |
| ProtocolInv.RunGrows | svc/tracker.go:261-419 | stored uploads, drawn ids, deletes and logged messages are never taken back over a run |
| Conservation.RunConserved | svc/tracker.go:299-361 | in every reachable state every upload's messages have their syncs and every logged one has its key kept |
| Conservation.NoDutySilentlyLost | svc/tracker.go:299-361 | every message of a fan-out is in progress, answered with Success, logged with its key in the log or repaired, or cut off by a crash |
| Conservation.NoDeleteSilentlyLost | svc/tracker.go:379-414 | every storage registered when a delete was accepted has a sync for it that is in progress, answered with Success, logged with its key in the log or repaired, or cut off by a crash, in all later states |
| Conservation.OnlyCrashCutsOff | svc/tracker.go:309-322 | without a crash no sync is ever cut off |
| Conservation.SameKeySameUpload | svc/tracker.go:339 | two ADD messages with one log key belong to the same stored upload |
| Conservation.SingleDestinationExact | svc/tracker.go:333-361 | with one destination a logged sync is its key's own entry, or exactly it has been repaired |
| Conservation.UnrivalledExact | svc/tracker.go:338-348 | in every reachable state a logged message, of an upload or a delete, is its key's own entry or has itself been repaired, as long as no other message with its file name and action was ever logged |
| Accounts.ExactIffUnrivalled | svc/tracker.go:338-348 | for a logged message without such a rival: it is accounted for by itself at every moment of a run if and only if no rival is logged in the run before its own repair is acknowledged |
| Accounts.DeleteExactIff | svc/tracker.go:378-414 | in every reachable state a logged delete is accounted for by itself in all later runs if and only if its repair has been acknowledged already, since a second delete of the file may take its log entry over |
| FirstSyncs.FirstAcked | svc/tracker.go:333-361 | an acknowledged first sync means that its destination holds the file's bytes until a delete names the file, whatever else is delivered, repaired or cut off |
| FirstSyncs.NextFirsts | svc/tracker.go:298-361 | every step keeps that each message has one first sync, that a logged one is given up for good, and that an unlogged one answered with Success has brought the bytes |
| Loss.ExactIffTwoStorages | svc/tracker.go:339 | every logged sync of an upload stays accounted for by itself in all later runs if and only if the group had at most two storages |
| Loss.TwoFailsInexact | svc/tracker.go:338-348 | two failed syncs of one upload, each sent or skipped as its storage allows, leave the first without an entry |
| LogTruth.LogTellsAsWritten | svc/tracker.go:91-106 | with the lookups as written, in every reachable state, for any number of storages and with copies cut off or not, a destination for which nothing is under way holds the stored bytes |
| LogTruth.LogTellsIff | svc/tracker.go:82-109 | for a non-empty file, in all later runs that cut no copy off, with reports from any time on, a destination for which nothing is under way holds the stored bytes, if and only if the lookups are as written or the group had at most two storages at the fan-out |
| LogTruth.LogTellsCutIff | svc/storage.go:302-319 | in all later runs, cut-off copies included, that is so if and only if the lookups are as written or the group had one storage |
| LogRuns.RepairedThenCut | svc/storage.go:302-319 | with lookups by address, the run in which a late request truncates a replica that a repair has brought, with nothing left under way |
| LogRuns.FirstForgotten | svc/tracker.go:338-348 | with lookups by address and two destinations, for every time of its reports, the run after which nothing is under way, no request is travelling, and one destination has no copy |
| LogRuns.RepairWorks | svc/tracker.go:95-106 | a repair that finds both storages Active and whose every part works drops the entry and leaves the other nodes their copies |
| Contents.FetchShape | svc/storage.go:285-287 | while its source holds the file an ADD with a URL-safe path fetches the file's bytes |
| Contents.NextHeld | svc/storage.go:271-358 | every step keeps what is known about source, replicas and acknowledged destinations |
| Contents.RunHeld | svc/storage.go:271-358 | in every reachable state, until a delete names the file: the source holds its bytes, every replica has the same bytes or was cut short, and every destination that answered Success has a copy |
| Contents.StoredFileDuties | svc/tracker.go:298-303 | a stored file has duties if and only if the tracker handled its upload's answer; otherwise it stays on its own node and no ADD of it ever exists |
| Contents.EmptyNeverReplicated | svc/storage.go:313 | until a delete names it, no sync and no repair of an empty stored file is ever acknowledged |
| Guarantees.DestinationAccounted | svc/tracker.go:299-361 | every other storage registered at the fan-out holds the stored bytes, or its first sync is in progress, cut off, or logged with its key kept |
| Guarantees.DoneReplicated | svc/tracker.go:82-109 | in any run they do if no repair was ever acknowledged, or with one destination if no repair of this message was, or if no copy there was cut off by its last write |
| Guarantees.SettledReplicated | svc/tracker.go:82-109 | in a run that cuts no copy off, with one destination, a finished sync and no log entry mean that the destination holds the stored bytes |
| Guarantees.FetchExactIff | svc/storage.go:285-287 | in every reachable state, deleted sources included, a fetch is right whatever a mangled URL answers if and only if the path it really names holds the stored bytes, or is the file's own, is gone, and the page for a missing file has these bytes; it names the file's own path if and only if path and group are URL-safe |
| Guarantees.MissingSourceDelivers | svc/storage.go:287-336 | when the source has lost the file a delivered ADD copies the page for a missing file over the replica and is acknowledged if and only if that page is not empty |
| Guarantees.EmptyPageNeverConfirms | svc/storage.go:287-319 | if the page for a missing file is empty, then also after deletes an ADD of a URL-safe file is acknowledged only when it copied the file's bytes, and one whose source has lost the file makes an empty copy and is not acknowledged |
| Copies.RunSources | svc/storage.go:340-358 | in every reachable state, deletes or not, the source of a stored file holds its bytes or nothing |
| Copies.CutShortIff | svc/storage.go:302-319 | a replica counts as cut short if and only if the copy last made to it broke off |
| Records.AnsweredMessages | svc/tracker.go:298-322 | the messages of an answered upload are exactly one per other storage of the group, with the URLs of both nodes and with id, place, digest and group of the upload |
| Records.RunTrue | svc/storage.go:125-146 | in every reachable state all records, messages and index entries are true: records of what the client sent and stored, entries of the upload they come from |
| Records.StoredAsDeclared | svc/storage.go:187-194 | in every reachable state a stored file has the digest its client declared, and its messages carry that digest and its id |
| Records.DamagedNeverStored | svc/storage.go:189-193 | in every run content with another digest than declared is never stored, indexed or fanned out |
| Records.InstantAnswerTrue | svc/storage.go:68-80 | in every reachable state an upload of known content leaves the node as it is and is answered with the data of an earlier upload whose content has that digest |
| Records.UploadUrlServes | svc/storage.go:135-154 | until a delete names the file, the URL its upload was answered with gets its content, in every reachable state |
| Records.InstantUrlServes | svc/storage.go:68-80 | in a clean run over URL-safe names the URL of an instant answer gets content with the declared digest |
| Captured.SendsIff | svc/tracker.go:338 | a sync of an upload is sent exactly if the object it holds shows Active; one of a delete exactly if that does not show Offline (svc/tracker.go:396) |
| Captured.SeesItsSlot | svc/tracker.go:309-322 | as long as no report replaces the object a sync holds, it sees the status of its slot in the registry |
| Captured.SeesItsObject | svc/tracker.go:309-322 | from the first report on that replaces it, a sync sees for good the status its slot had just before |
| Captured.RunHolding | svc/tracker.go:309-322 | in every reachable state each sync that may still be sent holds an object that is filed in its slot or was replaced |
| Guarantees.StickyRouting | svc/tracker.go:505-507 | with the same set of Active storages as at the routing of its upload a client is later routed to the node that took the upload, which still holds the bytes |
| Reachable.SomeRunForgets | svc/tracker.go:82-109 | with lookups by address, in any cluster with three nodes in one group, a run from the start that cuts nothing off ends with the file stored and undeleted, nothing under way or travelling, no log entry, and one destination without a copy |
| Reachable.SomeRunSpoils | svc/storage.go:302-319 | with lookups by address, in any cluster with two nodes in one group, a run from the start ends with a non-empty file stored and undeleted, nothing under way, no log entry, and an empty replica |
| Reachable.SomeRunKeepsPage | svc/storage.go:287-336 | in any cluster with two nodes in one group whose page for a missing file is not empty, a run from the start ends with an acknowledged replica that is this page |
| Mishaps.SomeRunOrphans | svc/tracker_proxy.go:63-65 | a run from the start stores a file that no later run ever fans out, because the answer was lost after the save |
| Mishaps.SomeRunBreaksIndex | svc/storage.go:354-356 | a run from the start with one delete of another digest leaves an index entry for a file that is gone |
| Mishaps.SomeRunMangles | svc/storage.go:285-287 | for a file whose path ends in a question mark a run from the start, in which no fetch names a directory or another route, ends with the source's page for a missing file acknowledged as its replica, though no delete has named the file |
| ClusterRepairs.RepairReplicates | svc/tracker.go:82-109 | in a reachable state one pass over a repairable log empties it and brings the stored bytes to every logged destination |
| ClusterRepairs.RepairEnters | svc/storage.go:321-333 | that pass also leaves at every logged destination an index entry for the file's digest that names a file which is there with that digest |
| ClusterRepairs.RepairCompletes | svc/tracker.go:82-109 | one such pass leaves a single destination whose sync has finished with the stored bytes if and only if its key is in the log or it has them already; so it always does unless the message was repaired before and some copy was cut off |
| ClusterRepairs.RepairAsWritten | svc/tracker.go:91-96 | as written, in every state that meets the invariant a repair pass changes neither log nor nodes, and crashes if and only if the group of some entry is registered |
| Indexes.NextSound | svc/storage.go:62-358 | every step of a clean run keeps every index sound |
| Indexes.RunIndexSound | svc/storage.go:68-80 | after every clean run each entry of each node names a file that is there with that digest |
| Indexes.InstantHitLive | svc/storage.go:68-80 | so an instant upload in a clean run names a live file of the requested digest |
| Indexes.RunSoundIff | svc/storage.go:271-358 | all indexes stay sound throughout a run if and only if every delivery of it meets the condition of its operation |
| Indexes.NextSoundIff | svc/storage.go:62-358 | from a reachable state with sound indexes a step keeps them sound if and only if it is no delivery that fails that condition |
| Indexes.IndexSoundWithoutDeletes | svc/storage.go:271-337 | runs without deletes, cut-off copies and unsafe names are clean, so all indexes stay sound |
| Refinement.AttemptIsRun | svc/tracker.go:333-361 | for the status the captured object shows, the nodes and the log that SyncFile leaves for an upload and SyncDelete for a delete are those of a run of that sync, which sends exactly when the method posts |
| Refinement.RepairIsRun | svc/tracker.go:95-106 | the POST of one log entry is a run of a repair sync |
| Refinement.PassIsRun | svc/tracker.go:82-109 | any pass over entries that were logged ends where some run of the cluster ends; a pass that dereferences a missing storage ends with the tracker down and all syncs under way cut off |
| Refinement.CrashTakesDown | svc/tracker.go:95 | a crash empties the registry and cuts off every upload and sync under way; log, nodes and requests on their way outlive it |
| Refinement.FullRepairIsRun | svc/tracker.go:82-109 | so does a repair pass with the cluster's lookups in any state that meets the invariant, hence in any reachable one |
| Refinement.TickAsWritten | svc/tracker.go:91-96 | as written, the next repair tick leaves nodes and log as they are and takes the tracker down if and only if the group of some log entry is registered |
| Refinement.UploadIsRun | svc/tracker.go:261-325 | an upload through the tracker, whatever becomes of its answer, is nothing or a run of one routed upload |
| Refinement.DeleteIsStep | svc/tracker.go:378-414 | by the answer of Delete: an accepted delete is one step that starts the syncs it returns, one for an unregistered group is none, and one that panics has a goroutine to do so and takes the tracker down |
| Refinement.DownloadIsStep | svc/tracker.go:505-512 | by the answer of Download: the registry moves only when the proxy fails, and then by one step that takes the serving storage offline |
| Refinement.ReportIsStep | svc/tracker.go:157-180 | a node's report is one step; the registry becomes what the report method leaves, and of the syncs under way only what they see of a replaced storage changes |
| Refinement.RunRegistryHealthy | svc/tracker.go:157-180 | the registry's invariants hold in every reachable state of the cluster |

## Left out

- HTTP, gin binding, JSON, cron and logging: only their outcomes appear, as answers that come, fail or get lost. What gin serves for a missing file is not part of this model, so it is an input.
- leveldb, the disk and multipart forms: maps from keys to values and from paths to bytes; a log or index write does not fail, and an iteration is a snapshot in key order.
- A log entry overwritten between repair's read of it and its delete: a repair pass is atomic in `Replication.FullRepair`; the cluster interleaves its single posts with everything else, and may repair any message that was ever logged.
- Trackers.Tracker.SetTrackerStatus: one clock reading serves a whole sweep, although the code reads the clock once per storage.
- Trackers.Tracker.StorageStatusReport: its sweep has one clock reading, and a proxy failure falls before or after a report, not inside it, although the code takes no common lock for the two.
- Trackers.Tracker.QuickUpload: routing, proxying and fan-out see one registry, since a method runs alone; in the cluster other steps may fall between them.
- Trackers.Tracker.Delete: the panic of a sync's goroutine is an answer of the method; that it ends the process is a step of the cluster (`Refinement.DeleteIsStep`).
- Conservation.NoDeleteSilentlyLost: the account is per log key, as for uploads; a repeated delete of the same name shares the key even in a group of one storage. When a logged delete is accounted for by itself is `Accounts.ExactIffUnrivalled` and `Accounts.DeleteExactIff`.
- Nodes.Upload: a client that sends an upload to a node without the tracker, with an id of its own choice, is not modelled.
- Replication.Fetch: whether a mangled URL names a directory, a path the server redirects or another route, and what is answered then, is an input; for any other path without a file the answer is the page for a missing file.
- Paths are compared as strings: a custom directory with dots, doubled slashes or characters the file system folds is not normalised. So a delete that spells a stored path in another way (a doubled slash, say) removes a file the model still counts as undeleted; what is proved about undeleted files and clean runs is for deletes that spell paths as uploads report them.
- MD5, CRC32 and snowflake are uninterpreted; two contents with one digest are allowed. Integer widths (free space, sizes) are not limited, as nothing in the modelled code computes near their bounds.
- Restarts of a storage node, and syncs cut off on it when it stops: a request is delivered once, late or never; deliveries repeat only through repair.
- The tracker's `http_schema` of the proxy, the 502 body, and the storage's error reports to `/err/log` change no state that is modelled.
- `RegisterStorage`, `RemoveStorage`, `UpdateStorage` and `IsExistStorage` of `svc/group.go` are not called by the code; status pages, the file download of a node, configuration, content types and the start-up code have no state to reason about.
- Deleted files may come back: an ADD still in the log recreates a file after a DELETE. No claim is made beyond `Repairs.DeleteWinsPass`.
