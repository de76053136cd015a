# lexr verification model

A Dafny model of the parts of lexr that must not go wrong, and proofs of what they promise.

- **Clean-up** (`CleanupTypes`, `Disk`, `Ledger`, `Pledge`, `Machine`, `Steps`, `Routes`, `Backup`,
  `Apply`, `Publish`, `Restore`, `Recovery`, `ReceiptPaths`, `ReceiptItems`). The disk is a value:
  visible names, names that may still be stale, inodes with bytes, mode, owner and a durability flag,
  and renames that are not durable yet. A `Machine` makes every system call one step. Before each step
  other processes may act, and each step may fail. The machine records every disk state: each moment
  is what others made of the one before it, or one step of lexr's, so that a statement about crashes
  or vanished names is a statement about all recorded moments of all runs. The ledger is what lexr may
  rely on at a moment; the pledge is what holds from the commit on, before the first rename. `Apply`
  and `Restore` are the source's loops over these steps.
- **Hand-off store** (`ClosedSet`, `Layout`, `Store`, `Handoff`). Any number of processes import and
  purge. Each store records every change, its own and those of others, without a gap; own changes have
  one of six concrete shapes. Histories of any processes merge into one run, in which every process
  does what the others rely on.
- **Kernel bundles** (`PackageNames`, `KernelEvidence`, `KernelStubble`, `KernelInventory`,
  `KernelCanonical`, `KernelBundle`, `Sorting`). Each validator accepts exactly a stated condition.
  Together they imply that a required device tree is not shadowed, and that canonical bundles do not
  depend on order.
- **Configuration** (`ConfigTree`, `ConfigFiles`, `ProfileNodes`, `ConfigProfile`). Merging works in
  place on dictionaries that share subtrees and refines a fold over plain trees. Setting the profile
  edits a graph of nodes with aliases in place. In both, a ghost snapshot of the heap is related to
  the tree or value that it stands for.
- **Device trees** (`DeviceTree`, `Touchscreen`, `Wifi`), **mountinfo** (`MountText`, `MountInfo`),
  **candidate selection** (`KernelRank`, `CandidateSelection`) and **the boot menu** (`BootMenu`).

Assumptions of the clean-up model: rename and link are atomic and never duplicate an entry; other
processes do not touch mode-0700 directories that lexr owns, do not write into existing inodes, and
do not replace directories; digests and keyed tags are injective, because they are constructors
applied to what they were computed from. A run is `alone` when no other process acts, and `calm` when
in addition it started on a disk whose visible names are durable.

Four findings of the proofs:

- While a restored file still has its temporary link, a crash that keeps the public name leaves it with
  two names, and a fresh restore refuses it (`CleanupRecovery.LinkWindow`).
  `CleanupRecovery.RetryAfterCrash` states exactly when a present original is accepted.
- Merging configuration files is not associative (`ConfigTree.NotAssociative` has three such files).
  `ConfigTree.GroupingShows` and `ConfigTree.Associative` state exactly when the grouping matters; the
  source folds from the left, and that is what `ConfigTree.FoldShows` is about.
- A mountinfo path with a carriage return, vertical tab, form feed or Unicode white space does not
  come back from its printed field, because fields are split at any white space while only space, tab
  and newline are escaped (`MountInfo.FieldSurvives`).
- A clean-up alone and without failures may commit and still not finish: when two paths of the plan
  lead to one name, because a directory has two (`CleanupRecovery.SharedDirectory`), or when a finding
  lies below a top-level directory called `receipt.json`, whose backup takes the name of the completed
  receipt (`CleanupRecovery.ReceiptDirectory`). `CleanupApply.Apply` states that nothing else keeps it
  from finishing.

## Model

| member | source | states |
|---|---|---|
| CleanupRecovery.CrashSafety | internal/cleanup/cleanup.go:1033-1318 | for any run of Apply over any findings, successful or failed at any step, and a crash at any recorded moment: before the commit everything durable at the start is untouched; from the commit on, which precedes every rename, each finding has its item and a durable copy under one name that fits it, with a durable receipt about all of them, the key and the hierarchy |
| CleanupRecovery.CrashIsRestorable | internal/cleanup/cleanup.go:1227-1318 | every crash of a run without interference leaves a disk from which a restore can recover every item |
| CleanupRecovery.RecoverAfterCrash | internal/cleanup/cleanup.go:775-895 | for a calm start, any planned findings, and a crash after the commit of any run of Apply over them, however that run ended: restoring with its receipt succeeds, every original is as reviewed, restored and present items partition the receipt in order, and no other visible name has changed |
| CleanupRecovery.RestoreAgain | internal/cleanup/cleanup.go:826-895 | a second restore reports every change as already present, restores nothing and leaves every name as it is |
| CleanupRecovery.LinkWindow | internal/cleanup/anchored.go:1011-1029 | negative: at the recorded moment that links a restored file under its public name, every crash which keeps that name shows the file under two names, so no receipt makes it an accepted original |
| CleanupRecovery.RetryAfterCrash | internal/cleanup/cleanup.go:826-850 | for any disk with something at the original place: accepted as present exactly when it is the reviewed entry and, for a file, has one name; anything else is refused and nothing is restored over it |
| CleanupRecovery.OnlyVerifiedIsUnlinked | internal/cleanup/cleanup.go:1259-1303 | every name that vanishes in any step of any run, under any interference: another process took a public leaf, or lexr removed its own work, renamed an original of the plan that it had sighted there, or removed an inode that was verified against one item of the plan under its public name and, after a rename onto a free name, verified again |
| CleanupRecovery.NothingIsReplaced | internal/cleanup/cleanup.go:1259-1303 | a name that is there before and after a step leads to the same inode, unless another process replaced a public leaf |
| CleanupRecovery.NothingIsRewritten | internal/cleanup/cleanup.go:1033-1318 | no inode that the process did not create ever changes or vanishes |
| CleanupRecovery.OwnWorkIsMade | internal/cleanup/cleanup.go:1033-1318 | what counts as own work was created by the process, under a free name, at a recorded moment |
| CleanupRecovery.ElsewhereIsPublic | internal/cleanup/cleanup.go:1259-1303 | a step counts as other processes' only when it is what they did, and then only public leaves change |
| CleanupRecovery.KeptIsUntouched | internal/cleanup/cleanup.go:1033-1226 | a crash before the first rename leaves everything known at the start untouched |
| CleanupRecovery.SecuredSurvives | internal/cleanup/cleanup.go:1227-1318 | the pledge (backups, receipt and key durable, entries at one of three places) survives a crash at the durable state |
| CleanupRecovery.CalmStart | internal/cleanup/cleanup.go:1033-1052 | a settled disk meets the starting conditions of a run without interference |
| CleanupRecovery.CrowdedStart | internal/cleanup/cleanup.go:1033-1052 | a disk whose directories are settled meets the starting conditions of a run among other processes |
| CleanupRecovery.Boot | internal/cleanup/cleanup.go:775-800 | booting on a settled disk starts a process that may restore |
| CleanupRecovery.WrittenIsAccepted | internal/cleanup/cleanup.go:1121-1226 | the items that a run writes for a plan of compiled rules are accepted by the receipt validator |
| CleanupRecovery.ApplyAlone | internal/cleanup/cleanup.go:1033-1319 | a whole clean-up from a settled disk, alone and without failures, of a plan that can be secured: it commits, and it finishes exactly when no two findings are about one name and none lies below a top-level directory called receipt.json; then the originals are gone and every other name is as it was |
| CleanupRecovery.SharedDirectory | internal/cleanup/cleanup.go:1259-1264 | negative: a disk with one directory under two names and a plan with one finding below each, which is secured and cannot finish |
| CleanupRecovery.ReceiptDirectory | internal/cleanup/cleanup.go:1304-1308 | negative: a disk and a plan whose backup takes the name of the completed receipt, which is secured and cannot finish |
| CleanupApply.Apply | internal/cleanup/cleanup.go:1033-1319 | whatever fails and whatever others do: from before the first rename the pledge is about exactly the findings, in order, and the receipt is returned, prepared while originals are removed, complete only when each was removed with its warrant; success leaves the completed receipt durable, and alone exactly the originals gone. Alone and without failures: a plan that can be secured is committed, and a committed run finishes exactly when no two findings are about one name and none lies below a top-level directory called receipt.json |
| CleanupApply.Open | internal/cleanup/cleanup.go:1047-1120 | revalidation, private directory and key: afterwards the vault is durable and private, and the key is durable when a private rule is among the findings; alone and without failures it succeeds for a current plan and a usable hierarchy |
| CleanupApply.Secure | internal/cleanup/cleanup.go:1047-1258 | on success every quarantine, backup and the pending receipt is durable before the first rename, and the pledge holds; alone, every original is then still as reviewed; alone and without failures it succeeds whenever the plan is current, its backups fit beside each other, the hierarchy is trustworthy as far as it exists, and the names of the run and its quarantines are free |
| CleanupApply.WritePending | internal/cleanup/cleanup.go:1250-1258 | commits exactly when the pending receipt is durable; when it was never written the quarantines are discarded; alone and without failures a free name is enough |
| CleanupApply.PledgeSecured | internal/cleanup/cleanup.go:1250-1258 | what the preparation left is all that the pledge needs |
| CleanupApply.VerifyOriginal | internal/cleanup/cleanup.go:1261-1264 | the original was seen where the path of its item leads, with the reviewed outline; complete when nothing fails |
| CleanupApply.QuarantineItem | internal/cleanup/cleanup.go:1259-1277 | the entry was sighted at the public name of its item, renamed from there, and verified in full after the rename; the ledger changed by exactly that rename; alone and without failures it succeeds for every original that is there as reviewed |
| CleanupApply.VerifyQuarantined | internal/cleanup/cleanup.go:1274-1277 | inside the quarantine the inode is the renamed one and fits content, mode and owner; complete when nothing fails |
| CleanupApply.UnlinkItem | internal/cleanup/cleanup.go:1278-1303 | unlinks the warranted inode and drops its empty workspace, durably, and nothing else; complete when nothing fails |
| CleanupApply.DropWorkspace | internal/cleanup/cleanup.go:1281-1302 | syncs the unlink and removes the empty quarantine directory; complete when nothing fails |
| CleanupApply.RemoveItem | internal/cleanup/cleanup.go:1259-1303 | one item: the names that go are the original and its workspace; the remaining jobs stay ready; alone and without failures it succeeds for every original that is there as reviewed |
| CleanupApply.RemoveAll | internal/cleanup/cleanup.go:1259-1303 | all items in receipt order, each removal warranted, vacating exactly their names; alone and without failures it succeeds when the originals are there and have different names, and only then |
| CleanupApply.Finish | internal/cleanup/cleanup.go:1304-1318 | the completed receipt is durable before the pending one goes, so one of them always is; alone and without failures it succeeds exactly when the name of the completed receipt is free |
| CleanupApply.NowSecured | internal/cleanup/cleanup.go:1250-1258 | durable backups, receipt and key give the pledge |
| CleanupApply.AfterRemovals | internal/cleanup/cleanup.go:1259-1303 | the vacated names are exactly the originals among those visible at the start |
| CleanupApply.NowPoised | internal/cleanup/cleanup.go:1227-1258 | alone, after the backups: every original is at the place that the plan found and as reviewed, and the name of the completed receipt is free exactly when no finding lies below a top-level directory called so |
| CleanupApply.NoReceiptYet | internal/cleanup/cleanup.go:1250-1258 | backups never take the name of a receipt unless a finding lies below a top-level directory called so |
| CleanupApply.PlansFitOnDisk | internal/cleanup/cleanup.go:1227-1236 | current findings about different names have backup paths of which none leads through another |
| CleanupApply.MovedIsEntry | internal/cleanup/cleanup.go:1265-1277 | a renamed entry that nobody else changed is what it was |
| CleanupApply.StillThereLess | internal/cleanup/cleanup.go:1259-1303 | removing one original and its workspace leaves the others as they were |
| CleanupBackup.Revalidate | internal/cleanup/cleanup.go:1428-1476 | refuses a plan whose target changed; alone it changes nothing and success means every finding is current; alone and without failures it accepts every current plan |
| CleanupBackup.Rescan | internal/cleanup/cleanup.go:1428-1476 | one target compared with everything that the plan recorded: alone and without failures it accepts exactly the reviewed entry with one name |
| CleanupBackup.EnsureBackupParent | internal/cleanup/anchored.go:330-371 | each level of the recovery hierarchy exists with acceptable mode and owner, durably; alone and without failures it succeeds when every level that exists is acceptable, and the name of the run is still free |
| CleanupBackup.MakeHierarchy | internal/cleanup/anchored.go:330-411 | opens every level that is there and makes those that are missing; alone, no other names are added |
| CleanupBackup.EnsurePrivateDirectories | internal/cleanup/anchored.go:415-431 | every missing directory of a backup path is made private and durable inside the vault; alone and without failures it succeeds when no file is in the way, and the vault stays as tidy as it was |
| CleanupBackup.MakeVault | internal/cleanup/cleanup.go:1064-1105 | the private directory of the run is new, empty, private, durable and reached from the root; alone and without failures it succeeds when the hierarchy is usable and the name free |
| CleanupBackup.MakeQuarantine | internal/cleanup/cleanup.go:1172-1205 | a new private directory beside the original, durable, that can be discarded while empty; alone it is the only name added, and without failures a free name is enough |
| CleanupBackup.Attest | internal/cleanup/cleanup.go:1206-1226 | what a receipt retains: the public digest, the tag of the bytes that are there or the link target; complete when nothing fails |
| CleanupBackup.PrepareItem | internal/cleanup/cleanup.go:1146-1226 | one job: its parent is reached, its quarantine is new, and its item describes the finding; alone the item fits the entry that is there, and without failures a current finding with a free workspace is prepared |
| CleanupBackup.Prepare | internal/cleanup/cleanup.go:1146-1226 | one ready job per finding in order, or the workspaces are discarded; alone and without failures a current plan with free and different workspaces is prepared |
| CleanupBackup.Discard | internal/cleanup/anchored.go:838-843 | removes only prepared, empty workspaces |
| CleanupBackup.BackUpItem | internal/cleanup/cleanup.go:1227-1248 | the copy in the vault is durable and is the reviewed entry, as the original still is; alone and without failures every entry is backed up whose place is free |
| CleanupBackup.BackUp | internal/cleanup/cleanup.go:1227-1249 | every job is backed up, or the workspaces are discarded; alone and without failures a plan whose paths fit beside each other is backed up whole |
| CleanupBackup.PlaceIsFree | internal/cleanup/cleanup.go:1227-1236 | in a plan whose paths fit, the place of every backup is free when its turn comes |
| CleanupBackup.TidyFile | internal/cleanup/anchored.go:468-539 | after each copy every file of the vault is a planned one at its path and every directory leads to a planned path |
| CleanupBackup.WriteDurable | internal/cleanup/anchored.go:449-464 | a private file is created exclusively, with its bytes and name durable; alone and without failures a free name is enough |
| CleanupSteps.OpenDirectory | internal/cleanup/anchored.go:246-274 | a child is opened only as the directory that was there before, through and after; absence is reported as such |
| CleanupSteps.MakeDirectory | internal/cleanup/anchored.go:375-411 | a directory made with an exact mode, durable with its name, or rolled back |
| CleanupSteps.ReadRegular | internal/cleanup/anchored.go:605-628 | a bounded read of one stable inode |
| CleanupSteps.ReadLink | internal/cleanup/anchored.go:632-649 | the target of one stable link |
| CleanupSteps.VerifyRegular | internal/cleanup/anchored.go:780-834 | accepts only the reviewed file with the given link count; complete when nothing fails |
| CleanupSteps.VerifyLink | internal/cleanup/anchored.go:822-829 | accepts only a link with the reviewed target and owner; complete when nothing fails |
| CleanupSteps.VerifyEntry | internal/cleanup/anchored.go:711-834 | accepts only an entry that was seen with the reviewed kind, mode and owner and read with the reviewed content, since the call and under that name; in a private place it is exactly the reviewed entry; complete when nothing fails |
| CleanupSteps.WriteFile | internal/cleanup/anchored.go:600-628 | exclusive create, bytes, owner, exact mode and sync of one private file |
| CleanupSteps.EnsureLinkOwnership | internal/cleanup/anchored.go:570-596 | a link gets its owner and is read back |
| CleanupSteps.CopyLink | internal/cleanup/anchored.go:468-539 | the copy of a link equals its source, durably, or is removed |
| CleanupSteps.CopyRegular | internal/cleanup/anchored.go:468-539 | the copy of a file equals its source in bytes, mode and owner, durably, or is removed |
| CleanupSteps.CopyEntry | internal/cleanup/anchored.go:468-539 | either kind of entry is copied exactly, or nothing is left |
| CleanupSteps.RemoveDestination | internal/cleanup/anchored.go:543-549 | a failed copy is removed and the removal settled |
| CleanupRoutes.EnsureDirectory | internal/cleanup/anchored.go:375-411 | opens or makes one directory of the hierarchy and checks mode and owner; alone and without failures it succeeds unless something unacceptable has the name |
| CleanupRoutes.StepInto | internal/cleanup/anchored.go:246-274 | one durable step down a route, with the directory that was there |
| CleanupRoutes.OpenRoute | internal/cleanup/anchored.go:100-127 | opens the parent of an entry one stable handle at a time; complete alone; alone and without failures it reports absence exactly when a component is absent below directories that are there |
| CleanupRoutes.OpenHierarchy | internal/cleanup/anchored.go:847-908 | opens and validates every fixed component of the recovery hierarchy |
| CleanupPublish.PublishLink | internal/cleanup/anchored.go:945-964 | recreates a link under a free name, and under any interference saw the reviewed link there afterwards; alone the result is exact and guaranteed for a verified copy |
| CleanupPublish.SettleLink | internal/cleanup/anchored.go:952-963 | a new link gets its owner and is verified, or is taken back while it still is the one that was made |
| CleanupPublish.PrepareCopy | internal/cleanup/anchored.go:965-1005 | a verified copy in a new private directory |
| CleanupPublish.LinkPublic | internal/cleanup/anchored.go:1006-1023 | links only under a free name, and then saw that name lead to the very file that was prepared and verified |
| CleanupPublish.Unstage | internal/cleanup/anchored.go:1024-1041 | removes the temporary name and its directory, and nothing else |
| CleanupPublish.PublishFile | internal/cleanup/anchored.go:943-1041 | recreates a file under a free name, and under any interference saw that very file there afterwards; alone the result is exact and guaranteed for a verified copy |
| CleanupPublish.TwoNames | internal/cleanup/anchored.go:1011-1029 | while the workspace exists the published file has exactly two names |
| CleanupRestore.ValidateReceipt | internal/cleanup/cleanup.go:899-996 | accepts exactly the receipts of compiled rules, each at most once, with matching places and evidence |
| CleanupRestore.ReadKey | internal/cleanup/anchored.go:912-939 | the key is read only when a private item needs it, and is the one that was written |
| CleanupRestore.RestoreFrom | internal/cleanup/cleanup.go:851-895 | publishes from a copy only after verifying it; under any interference a restored original took a free name and was then seen there as reviewed |
| CleanupRestore.FromBackup | internal/cleanup/cleanup.go:851-876 | alone and without failures it restores exactly from an intact backup, and lets the quarantine be tried exactly when the backup or its directory is absent or something else is in its place |
| CleanupRestore.FromQuarantine | internal/cleanup/cleanup.go:877-895 | alone and without failures it restores exactly when the quarantine of the item opens, its entry is intact with one name, and the names that are needed are free |
| CleanupRestore.Recover | internal/cleanup/cleanup.go:851-895 | tries the backup first and the quarantined entry second; under any interference a restored original took a free name and was then seen there as reviewed; alone and without failures it restores exactly when the backup is intact, or is absent or unfit and the quarantined entry is intact, and the names that are needed are free |
| CleanupRestore.RestoreItem | internal/cleanup/cleanup.go:826-895 | under any interference: present means verified at the place of the original during the call, restored means that it took a free name there and was then seen as reviewed; alone and without failures, present exactly when the reviewed entry is there, restored exactly when nothing is there, one recovery source is acceptable and the needed names are free, refused otherwise |
| CleanupRestore.PickedPartition | internal/cleanup/cleanup.go:810-821 | the two reported lists partition the changes and keep their order |
| CleanupRestore.RestoreAll | internal/cleanup/cleanup.go:775-822 | every item in order; under any interference the report lists exactly the items in two parts, each item vouched for at the place of its original; alone every original is as reviewed and no other name changed |
| CleanupRestore.Restore | internal/cleanup/cleanup.go:775-822 | a report means an accepted receipt, split in order into items that were verified in place and items that took a free name and were then seen as reviewed, whatever others do; alone every original is as reviewed, and a report is guaranteed when every item is present or can be recreated from its backup or its quarantine, items at one place agree, and no absent original lies on the way to the missing backup of another |
| CleanupRestore.RestorableItemStays | internal/cleanup/cleanup.go:810-822 | recreating one original leaves every other item present or recreatable, from the backup or the quarantine |
| Machines.Machine.Create | internal/cleanup/anchored.go:468-539 | creates only under a free name; the new ledger states the whole change |
| Machines.Machine.Store | internal/cleanup/anchored.go:553-566 | writes only inodes that the run may write; the new ledger states the whole change |
| Machines.Machine.Sync | internal/cleanup/anchored.go:434-445 | makes one inode durable; the new ledger states the whole change |
| Machines.Machine.SyncDirectory | internal/cleanup/anchored.go:434-445 | makes the entries of one directory durable; the new ledger states the whole change |
| Machines.Machine.Rename | internal/cleanup/cleanup.go:1265-1267 | moves an original that was sighted for an item to a free name in an empty private directory; the new ledger states the whole change |
| Machines.Machine.Link | internal/cleanup/anchored.go:1011-1013 | gives a durable file a second name that was free; the new ledger states the whole change |
| Machines.Machine.Remove | internal/cleanup/anchored.go:1059-1071 | removes only the run's own work or an inode verified twice against one item of the pledge; the new ledger states the whole change |
| Machines.Machine.RemoveIfSame | internal/cleanup/anchored.go:1059-1071 | rolls back an entry only while it is the one just created; the new ledger states the whole change |
| Machines.Machine.Inspect | internal/cleanup/anchored.go:711-770 | reads one entry as it is, and records what was seen |
| Pledges.SecuredRename | internal/cleanup/cleanup.go:1265-1273 | moving an original into its quarantine keeps the pledge |
| Pledges.SecuredRemove | internal/cleanup/cleanup.go:1278-1303 | unlinking a quarantined entry or a workspace keeps the pledge |
| Pledges.SecuredRemovePending | internal/cleanup/cleanup.go:1304-1318 | dropping the pending receipt keeps the pledge once the completed one is durable |
| Pledges.SecuredCreate | internal/cleanup/cleanup.go:1304-1312 | creating the completed receipt keeps the pledge |
| Ledgers.CrashKeeps | internal/cleanup/cleanup.go:1227-1318 | every durable entry that the ledger keeps is there after any crash |
| Ledgers.CrashReturnsOriginal | internal/cleanup/cleanup.go:1265-1273 | a crash after a rename leaves the entry under one of its two names |
| Ledgers.InterferenceUpholds | internal/cleanup/cleanup.go:1259-1303 | whatever other processes do to visible leaf names, the ledger stays true |
| Ledgers.RenameUpholds | internal/cleanup/cleanup.go:1265-1267 | the ledger stays true over a rename |
| CleanupReceipts.ValidateReceipt | internal/cleanup/cleanup.go:899-1015 | accepts exactly the receipts whose header is canonical and whose paths, kinds and evidence are what the validator recomputes |
| CleanupReceipts.WriteReceipt | internal/cleanup/cleanup.go:1121-1226 | every receipt that a run writes, prepared or complete, is accepted by the validator |
| CleanupReceipts.WriteChange | internal/cleanup/cleanup.go:1146-1226 | the item of one finding is accepted under any receipt of the same root, home and backup directory |
| CleanupReceipts.AcceptedPlaces | internal/cleanup/cleanup.go:934-975 | the original of an accepted change is the target of its compiled rule, and the backup lies at the same place below one directory of the standard backup directory |
| CleanupReceipts.Siblings | internal/cleanup/cleanup.go:1000-1015 | a quarantine path built beside an original has its parent and its name |
| CleanupReceiptItems.ItemsAgree | internal/cleanup/cleanup.go:934-996 | an item of a run is acceptable by its parts exactly when the change that it becomes is acceptable by its paths |
| CleanupReceiptItems.ValidatorsAgree | internal/cleanup/cleanup.go:899-1015 | a receipt passes by its paths exactly when its header is in order and its items pass by their parts |
| CleanupReceiptItems.WrittenIsValid | internal/cleanup/cleanup.go:1121-1258 | the receipts of a run on planned findings pass the path-level validator |
| HandoffStore.EveryRunIsSound | internal/handoff/store.go:237-315 | in every interleaving of the allowed changes each content address is absent or a complete entry, and names are held by one process only |
| HandoffStore.GuaranteeIsSound | internal/handoff/store.go:237-315 | making, filling, publishing, isolating, putting back and dropping each keep every address absent or complete |
| HandoffStore.MergedMoves | internal/handoff/store.go:237-315 | each own change in the recorded history of a process is an allowed move of the common run |
| HandoffStore.EveryMergeIsSound | internal/handoff/store.go:237-315 | the histories of any processes, merged in any way, are an interleaving; after every change each address is absent or complete |
| HandoffStore.OthersKeepTheirWord | internal/handoff/store.go:237-315 | between two changes of one process the changes of all others are what its environment is assumed to do |
| HandoffStore.StoresStaySound | internal/handoff/store.go:175-315 | for any stores after any Imports and Purges, every common run of what they recorded keeps each address absent or complete |
| HandoffStore.GuaranteeIsRely | internal/handoff/store.go:237-315 | each change that a process may make leaves every other process what it relies on |
| HandoffStore.StepStaysOrderly | internal/handoff/store.go:237-315 | one change of one process keeps the store sound and leaves the names of others alone |
| HandoffStore.AddressIsStable | internal/handoff/store.go:698-718 | an address that is present at two moments of a run shows the same entry at both |
| HandoffStore.CompleteIsUnique | internal/handoff/store.go:698-764 | an address determines its complete entry: manifest, layout, modes and payload bytes |
| HandoffStore.Store.Publish | internal/handoff/store.go:285-315 | a complete own tree gets its address without replacing anything; the history records the waiting and this one change; alone and without failures a free address is enough |
| HandoffStore.Store.Isolate | internal/handoff/purge.go:94-125 | an entry is taken off its address as a whole, to a name that was free; the history records the waiting and this one change; alone and without failures it succeeds exactly then |
| HandoffStore.Store.MakeFresh | internal/handoff/store.go:237-250 | a new private directory under a free name, drawn until one is free; alone and without failures it succeeds when one of the names drawn is, and changes nothing else |
| HandoffStore.Store.WriteFile | internal/handoff/store.go:606-622 | creates one new private file in an own tree |
| HandoffStore.Store.RemoveDirectory | internal/handoff/purge.go:246-278 | removes only an empty directory of an own tree |
| HandoffStore.Store.Drop | internal/handoff/purge.go:246-278 | gives up an own name with what is under it |
| Handoff.ScanTree | internal/handoff/store.go:425-497 | accepts a tree exactly when its paths are the declared layout, with private modes |
| Handoff.InspectPayloads | internal/handoff/store.go:531-574 | every payload has its declared size and digest |
| Handoff.Validate | internal/handoff/store.go:698-764 | accepts an entry exactly when it is complete for its address, and returns its closed set; an absent one is refused |
| Handoff.ReadSource | internal/handoff/store.go:203-232 | a source that does not change is accepted, without failures, exactly when its manifest decodes and it holds exactly the declared layout and payloads; the offer is what it says |
| Handoff.VerifySource | internal/handoff/store.go:512-519 | a source that does not change is accepted, without failures, exactly when every payload has its size and digest |
| Handoff.CreateStagingLayout | internal/handoff/store.go:578-603 | shallowest first, every directory finds its parent; the result is exactly the declared directories |
| Handoff.Stage | internal/handoff/store.go:263-291 | staged means that the own tree is the complete entry of the manifest and the source is as it was; nothing but that tree is changed; without failures an unchanging correct source is staged exactly when no payload takes the place of the manifest, of a directory or of another payload |
| Handoff.Import | internal/handoff/store.go:180-316 | whatever the source holds meanwhile and whatever others do: every own change is recorded, takes nothing from any address, touches no name held before, and publishes at most under the digest of the manifest; a new import was published complete, and an existing one was complete at its address during the call. Undisturbed, with an unchanging source: it succeeds exactly for a correct hand-off that exists already or can be staged, says which, and the whole change is that the address of its manifest holds its private copy; otherwise nothing changes |
| Handoff.AddressHoldsCopy | internal/handoff/store.go:237-316 | the entry at the address of a correct hand-off is its private copy, and no other tree |
| Handoff.StagedIsComplete | internal/handoff/store.go:263-283 | directories, manifest and payloads as they were copied make the complete entry |
| Handoff.ScaffoldFits | internal/handoff/store.go:578-694 | the payloads find their places free exactly when none takes that of the manifest, of a directory or of another |
| Handoff.Existing | internal/handoff/store.go:241-248 | an entry that is there is reported only after its audit; it was complete when the call began |
| Handoff.StageOrFind | internal/handoff/store.go:251-316 | a new entry is published complete; only a refused publication looks for an existing one, which then stood at the address during the call; the staging name is given up; undisturbed, it publishes exactly the offers that can be staged |
| Handoff.RemoveValidated | internal/handoff/purge.go:246-278 | files, then directories deepest first, ends with the root alone; complete when nothing fails |
| Handoff.DeepestIsEmpty | internal/handoff/purge.go:258-278 | going backwards through the shallowest-first order, no remaining directory lies below the next one |
| Handoff.RemoveIsolated | internal/handoff/purge.go:126-153 | removes a verified isolated entry and its name; complete when nothing fails |
| Handoff.Take | internal/handoff/purge.go:65-125 | takes the entry from its address in one change, or only waited; undisturbed, it takes it exactly when it is the planned closed set |
| Handoff.Settle | internal/handoff/purge.go:126-153 | removes the isolated entry only as the planned closed set, else puts it back or leaves it whole; undisturbed, the planned one is removed and nothing else |
| Handoff.Purge | internal/handoff/purge.go:65-153 | every own change is recorded, is at the planned address or in the isolated tree, and touches no name held before; a refusal changed nothing, a failed re-check puts the entry back or leaves it whole under its isolation name, and a purge removed exactly the planned closed set. Undisturbed, it purges exactly the entry that is planned, leaving all else as it was, and refuses any other and an absent one, leaving everything |
| HandoffLayout.BuildLayout | internal/handoff/store.go:397-409 | the layout holds every payload and exactly the directories above them; the parent loop ends |
| HandoffLayout.LayoutIsClosed | internal/handoff/store.go:397-409 | every parent of a declared path is declared |
| HandoffLayout.LayoutIsUnique | internal/handoff/store.go:397-409 | payloads determine their layout |
| HandoffLayout.SortByDepth | internal/handoff/store.go:578-590 | orders all paths by depth |
| HandoffLayout.ParentComesFirst | internal/handoff/store.go:578-603 | in that order every parent comes before its child |
| ClosedSets.ClosedSetInjective | internal/handoff/purge.go:186-220 | equal byte streams mean the same identifier and the same inventory of path, kind, mode, size and digest |
| ClosedSets.StreamInjective | internal/handoff/purge.go:216-220 | length-prefixed fields can be read back in one way only |
| ClosedSets.InventoryInjective | internal/handoff/purge.go:186-212 | entries of five and of three fields cannot be confused |
| ClosedSets.Hasher.WriteField | internal/handoff/purge.go:216-220 | appends the length, a colon and the value |
| ClosedSets.DigestClosedSet | internal/handoff/purge.go:186-212 | feeds exactly the specified stream |
| KernelStubble.RequiredIsNotShadowed | internal/kernel/stubble_selection.go:80-165 | for what the validators together accept: whichever table record matches a HWID of a required device, the first payload in image order with that compatible is the device, and some record matches |
| KernelStubble.DeclaredHWIDs | internal/kernel/stubble_selection.go:80-165 | the declared HWIDs of a device are exactly those that the table maps to its primary compatible |
| KernelStubble.ValidateStubbleSelection | internal/kernel/stubble_selection.go:80-165 | accepts exactly when payload order, table and evidence agree, with no required device shadowed or sharing an encoded route |
| KernelStubble.CheckPayloads | internal/kernel/stubble_selection.go:91-117 | payload order names every embedded tree once, and every required tree comes first for its compatible |
| KernelStubble.ChoiceIsFirst | internal/kernel/stubble_selection.go:105-111 | the choice for a compatible is the device of the first payload that has it, and there is none exactly when no payload has it |
| KernelStubble.IndexTable | internal/kernel/stubble_selection.go:118-135 | both indexes hold exactly the records of the table |
| KernelStubble.CheckRoutes | internal/kernel/stubble_selection.go:136-163 | the table holds exactly the attributed HWIDs, and a required tree shares none |
| KernelEvidence.ValidateEvidence | internal/kernel/bundle.go:473-552 | accepts exactly when attribution records and selector inventory agree both ways |
| KernelEvidence.CheckRecords | internal/kernel/bundle.go:492-531 | collects exactly the selectors that well-formed records account for |
| KernelEvidence.SameSelectors | internal/kernel/bundle.go:532-543 | equal sizes and one inclusion compare two selector sets |
| KernelInventory.ValidateInventory | internal/kernel/bundle.go:604-702 | accepts exactly the inventories with unique devices and paths, sound trees, disjoint routes and matching counts |
| KernelInventory.LatestOwnerSuffices | internal/kernel/bundle.go:653-669 | comparing with the latest owner of each route finds every forbidden sharing |
| KernelInventory.EnterRoutes | internal/kernel/bundle.go:653-669 | keeps only the latest owner of every route |
| KernelInventory.BootPlatforms | internal/kernel/bundle.go:575-590 | lists exactly the selected devices, none twice |
| KernelInventory.AcceptedPlatforms | internal/kernel/bundle.go:575-590 | an accepted bundle advertises at least one platform and every required device |
| KernelBundle.NewBundle | internal/kernel/bundle.go:220-344 | builds the canonical bundle exactly when the inputs are acceptable; each of its packages has the role, ABI and version that its file name was printed for |
| PackageNames.PrintedParses | internal/kernel/bundle.go:180-194 | for every role, parsing the printed file name in any folder gives back the role, ABI and version |
| PackageNames.NamesAreExact | internal/kernel/bundle.go:348-366 | a name parses as exactly the role, ABI and version that its base name was printed for in one of the five forms, and nothing else parses |
| KernelBundle.BundleIsNamed | internal/kernel/bundle.go:250-344 | the packages of an accepted bundle carry printed names of its own ABI and version, one of each role |
| KernelBundle.BundleIsNotShadowed | internal/kernel/stubble_selection.go:80-165 | in every accepted ordered bundle, the HWIDs declared for a required tree are exactly those that the table maps to its compatible, and for each of them whatever record matches makes the stub choose that very tree |
| KernelBundle.BundleIsOrdered | internal/kernel/stubble_selection.go:80-165 | the canonical evidence and trees of an accepted ordered bundle satisfy all validators together; the delivery is embedded |
| KernelBundle.RequiredIsCarried | internal/kernel/bundle.go:335-343 | every tree of the inputs is in the bundle, with its selectors reordered only |
| KernelBundle.OrderDoesNotMatter | internal/kernel/bundle.go:220-344 | reordering packages, trees, selectors, evidence, records or HWIDs changes neither acceptance nor the bundle; PayloadOrder, HWIDRecords and CompatibleStrings keep their order |
| KernelBundle.AcceptedAlike | internal/kernel/bundle.go:220-344 | acceptance is the same for reordered inputs, both ways |
| KernelBundle.RebuildingChangesNothing | internal/kernel/bundle.go:220-344 | rebuilding an accepted bundle from its own fields is accepted and gives the same bundle |
| KernelBundle.GatherPackages | internal/kernel/bundle.go:250-290 | accepts exactly coherent packages: known names, one per role, one ABI, one version |
| KernelBundle.PackagesStay | internal/kernel/bundle.go:250-320 | reordered packages are accepted alike and name the same kernel |
| KernelBundle.CloneProvenance | internal/kernel/bundle.go:393-426 | the copy has selections, records and their values in canonical order |
| KernelBundle.CloneDeviceTrees | internal/kernel/bundle.go:556-570 | the copy has selectors in canonical order, everything else as it was |
| KernelBundle.ValidateOrigin | internal/kernel/bundle.go:429-469 | accepts exactly complete tool identities with agreeing evidence |
| KernelCanonical.CanonicalShows | internal/kernel/bundle.go:393-426 | the canonical provenance shows the same evidence as its source |
| KernelCanonical.OneProvenance | internal/kernel/bundle.go:393-426 | accepted evidence has one canonical form |
| KernelCanonical.InventoryStays | internal/kernel/bundle.go:604-702 | an inventory is accepted in any order of its trees |
| KernelCanonical.EvidenceStays | internal/kernel/bundle.go:473-552 | evidence is accepted in any order |
| KernelCanonical.OrderedStays | internal/kernel/stubble_selection.go:80-165 | an ordered selection is accepted for any order of trees and evidence |
| KernelCanonical.AnyOrder | internal/kernel/bundle.go:556-570 | selectors and record values in any order have one normal form |
| Sorting.SortSorts | internal/kernel/bundle.go:335-343 | sorting orders and keeps every element |
| Sorting.OneOrder | internal/kernel/bundle.go:335-343 | elements that are never tied have one order |
| ConfigTree.FoldShows | internal/config/files.go:91-118 | what the merged configuration shows at a path is what the last file deciding that path shows; nothing is lost or invented |
| ConfigTree.LastDecides | internal/config/files.go:91-118 | the deciding file decides the path and no later one does |
| ConfigTree.MergeShows | internal/config/files.go:156-166 | one overlay decides what it decides and leaves every other path as it was |
| ConfigTree.GroupingShows | internal/config/files.go:156-166 | for all three files and every path, both groupings show the same exactly unless the first file has something there, the last one does not decide it, and on the way the middle one has a value where the last one has a mapping |
| ConfigTree.Associative | internal/config/files.go:156-166 | three files merge to the same configuration in both groupings exactly when no path of the first is interrupted like that |
| ConfigTree.DecidedTogether | internal/config/files.go:156-166 | two files together decide a path exactly when one of them does and it is not interrupted |
| ConfigTree.PathsShowAll | internal/config/files.go:156-166 | configurations that show the same at every path are the same |
| ConfigTree.NotAssociative | internal/config/files.go:156-166 | negative: three files for which the grouping matters at a path; ConfigTree.Associative has the exact condition |
| ConfigFiles.MergeValues | internal/config/files.go:156-166 | the in-place, subtree-sharing merge leaves base standing for the merged tree, owning only dictionaries of base and overlay |
| ConfigFiles.MergeKey | internal/config/files.go:157-164 | one key is merged, and nothing else changes |
| ConfigFiles.LoadFiles | internal/config/files.go:79-134 | accepts exactly when every file decodes and states version 1 if any, and then stands for the left fold of the files |
| ConfigFiles.StandsStill | internal/config/files.go:156-166 | what a dictionary stands for depends on the dictionaries that it owns only |
| ConfigProfile.SetProfile | internal/config/profile.go:64-142 | written exactly when wanted; then the document resolves to the edited pairs, is well formed with no dangling alias, and keeps every comment; refused leaves it alone |
| ConfigProfile.EditedLookup | internal/config/profile.go:130-142 | the profile becomes the new value, a version is stated, and every other setting keeps its value |
| ConfigProfile.EditedTwice | internal/config/profile.go:64-142 | setting the same profile again changes nothing |
| ConfigProfile.ForceOverrides | internal/config/profile.go:64-90 | afterwards the document sets the profile; without force it is refused exactly when another profile is set, and with force it gets the very same edit |
| ConfigProfile.Elsewhere | internal/config/profile.go:133-139 | overwriting a value that no alias refers to changes no other value |
| ConfigProfile.MappingValue | internal/config/profile.go:174-181 | finds the value of the first key with the text |
| ConfigProfile.Overwrite | internal/config/profile.go:138-139 | one value of the mapping becomes the new scalar, the others keep their meaning |
| ConfigProfile.Append | internal/config/profile.go:130-142 | the mapping gains one pair at its end, the others keep their meaning |
| ProfileNodes.PreserveAliases | internal/config/profile.go:184-195 | exactly the aliases to the target below a node become copies of it, with their own comments |
| ProfileNodes.PreservedMeans | internal/config/profile.go:184-195 | materialising aliases changes no resolved value |
| ProfileNodes.AllReached | internal/config/profile.go:184-195 | the recursion from the document reaches every node |
| Touchscreen.WalkDeviceTree | internal/hardwaredoctor/touchscreen.go:187-224 | ends after at most 2049 directories; finds a controller nearest to the root; without controller and unavailability, none is within 13 levels and every directory was read |
| Touchscreen.InspectController | internal/hardwaredoctor/touchscreen.go:227-278 | reports the controller state and client as they are within five levels, or that something could not be read |
| Touchscreen.EnablingWords | internal/hardwaredoctor/touchscreen.go:229-234 | a word with any number of terminating zeros enables the controller exactly when it is empty, ok or okay in any case |
| Touchscreen.StatusValues | internal/hardwaredoctor/touchscreen.go:229-234 | okay enables and disabled does not, however terminated |
| Touchscreen.ReadDeviceTree | internal/hardwaredoctor/touchscreen.go:150-184 | an absent controller is reported only after a complete walk of some root, and none of the others showing one |
| Touchscreen.FoundNearest | internal/hardwaredoctor/touchscreen.go:205-216 | the first controller in breadth-first order is nearest to the root |
| Touchscreen.Children | internal/hardwaredoctor/touchscreen.go:251-275 | queues the subdirectories in order up to a client |
| Wifi.InspectDeviceTree | internal/hardwaredoctor/wifi.go:158-193 | ends after at most 2049 directories; nodes and policy are reported as they are within 13 levels, or unavailability has a cause |
| Wifi.Children | internal/hardwaredoctor/wifi.go:172-191 | notes every Wi-Fi node and its policy, and queues the subdirectories |
| DeviceTree.SweepStep | internal/hardwaredoctor/touchscreen.go:195-221 | one directory more keeps all that the sweep has established |
| DeviceTree.SweptAll | internal/hardwaredoctor/touchscreen.go:187-224 | with an empty queue every directory within the limit was read |
| DeviceTree.NearerIsDone | internal/hardwaredoctor/touchscreen.go:187-224 | everything nearer than the head of the queue was read |
| DeviceTree.SweepOverruns | internal/hardwaredoctor/touchscreen.go:203-207 | the budget is exceeded only when different directories really hold more entries |
| MountText.DecodeEscaped | internal/bootidentity/mountinfo.go:169-203 | decoding the escaped form of any NUL-free text returns it |
| MountText.EscapeDecoded | internal/bootidentity/mountinfo.go:169-203 | escaping what a whitespace-free field decodes to returns the field |
| MountText.EscapesAreExact | internal/bootidentity/mountinfo.go:169-203 | the fields that decode are exactly the escaped forms of NUL-free texts |
| MountText.DecodePath | internal/bootidentity/mountinfo.go:169-203 | computes the specified decoding, errors included |
| MountText.FieldsOfJoined | internal/bootidentity/mountinfo.go:79-79 | splitting joined words returns the words |
| MountText.AtoiOfDecimal | internal/bootidentity/mountinfo.go:89-96 | parsing a printed number returns it |
| MountInfo.ParseEntry | internal/bootidentity/mountinfo.go:74-148 | accepts exactly the lines that say an admissible entry, and returns it |
| MountInfo.ParsesOneThing | internal/bootidentity/mountinfo.go:74-148 | a line says one entry |
| MountInfo.PrintedParses | internal/bootidentity/mountinfo.go:74-148 | printing a well-formed, in-bounds record and parsing it returns the entry |
| MountInfo.FieldSurvives | internal/bootidentity/mountinfo.go:74-203 | a path survives printing exactly when it is not empty, has no NUL and no white space but space, tab and newline |
| MountInfo.ParseMountInfo | internal/bootidentity/mountinfo.go:43-71 | accepts exactly the in-bounds tables whose lines all parse, in order |
| MountInfo.PrintedTable | internal/bootidentity/mountinfo.go:43-71 | printing a table and parsing it returns its entries |
| MountInfo.SelectRootAndBoot | internal/bootidentity/mountinfo.go:215-232 | selects the unambiguous owners of root and boot, or refuses because there are none |
| MountInfo.JoinsOnce | internal/bootidentity/mountinfo.go:269-272 | the joined path is the root without its trailing slashes, one slash and the name; below / it is /boot |
| MountInfo.CheckUnambiguous | internal/bootidentity/mountinfo.go:248-261 | accepts exactly when everything mounted there is one clean file system |
| MountInfo.OrderDoesNotMatter | internal/bootidentity/mountinfo.go:215-261 | any order of the table selects the same file systems or refuses too |
| CandidateSelection.SelectDTBCandidate | internal/bootdoctor/candidate.go:60-90 | an error exactly on a conflict, otherwise none or the unique greatest candidate |
| CandidateSelection.OrderDoesNotMatter | internal/bootdoctor/candidate.go:60-90 | any permutation of the candidates has the same outcome |
| CandidateSelection.OneOutcome | internal/bootdoctor/candidate.go:60-90 | the outcome is determined |
| CandidateSelection.ErrorsAreConflicts | internal/bootdoctor/candidate.go:75-83 | an error is reported exactly when two competing candidates conflict |
| CandidateSelection.PartsAgree | internal/bootdoctor/candidate.go:60-90 | a part of an unambiguous list is unambiguous, and its winner does not outrank the whole winner |
| KernelRank.GreaterThan | internal/bootdoctor/candidate.go:147-156 | compares ranks lexicographically |
| KernelRank.PlainRank | internal/bootdoctor/candidate.go:95-129 | an identity of three numbers with or without a flavour has these as its major, minor and patch line, in this order, and generation zero |
| KernelRank.SurfaceRank | internal/bootdoctor/candidate.go:95-143 | behind the marker sp11v the number up to 999 is the generation |
| CandidateSelection.GreaterIsStrict | internal/bootdoctor/candidate.go:147-156 | the order of ranks is strict and total |
| BootMenu.Register | internal/bootmenu/arch.go:135-158 | appends exactly when neither menu names the entry and nothing loads its image; then the old menu is a prefix, entry and identifier occur exactly once, and deciding again finds it present; present exactly when entry and identifier occur once |
| BootMenu.AppendsWhenAbsent | internal/bootmenu/arch.go:135-158 | the decision is to append exactly when none of the three occurrences is there |
| BootMenu.AppendedOnce | internal/bootmenu/arch.go:135-158 | the old menu is a prefix of the new one, entry and identifier occur exactly once, and deciding again finds it present |
| BootMenu.NothingStraddles | internal/bootmenu/arch.go:152-157 | no occurrence of the identifier straddles the join |
| BootMenu.OtherVolumeIsRefused | internal/bootmenu/arch.go:144-150 | afterwards an entry for another volume is refused |
| BootMenu.EntryNamesItselfOnce | internal/bootmenu/arch.go:229-238 | a rendered entry holds the identifier exactly once |
| BootMenu.EntryLoads | internal/bootmenu/arch.go:229-238 | a rendered entry searches for the given volume and starts the fixed loader that lies on it |

## Left out

- CleanupApply.Apply: the scan that produces findings (markers, prefixes, exact identities, modification times), `--yes`, feature selection and identities of the opened roots are not modelled; a finding is what the scan compared.
- CleanupApply.VerifyOriginal: under interference the verification before the rename binds the inode's kind, size, mode and owner, because the content is read by name; the verification inside the quarantine binds everything to the inode.
- CleanupRecovery.RecoverAfterCrash: proved for runs without interference; under interference CrashSafety, OnlyVerifiedIsUnlinked and what Restore vouches for hold, and no recovery is promised.
- CleanupRestore.Restore: under interference a file that was found present was seen as reviewed and read as reviewed at two moments, possibly as two entries, because the source reads the content by name; nothing is said about the time after the call.
- HandoffStore.Store.Drop: removing a whole own tree is one step; a process that stops in between keeps the name.
- CleanupRecovery.CrashSafety: a crash never shows one renamed entry under both names, and a continuation without a crash is covered as the image in which everything visible survived.
- CleanupApply.Secure: sufficient for the commit; each of the conditions is checked by the run, and which failure a violated one leads to is not stated.
- CleanupRestore.ReadKey: the key is a symbolic secret; randomness is fresh by assumption.
- CleanupRestore.ValidateReceipt: works on items that name components; CleanupReceipts.ValidateReceipt works on the public paths, where the resolution of root and home is a parameter.
- CleanupSteps.EnsureLinkOwnership: other processes do not act between creating a link, changing its owner and reading it back.
- Machines.Machine.RemoveIfSame: other processes do not act between the comparison and the removal.
- Machines.Machine.Create: the mode mask of the process is modelled, extended attributes and access lists are not.
- CleanupReceipts.WriteReceipt: timestamps and JSON are not modelled; the time stamp is one plain path component.
- Handoff.Import: crashes and durability of the store, case-insensitive path collisions, snapshots of file metadata and overlap of source and store are not modelled; the source is arbitrary at every read.
- HandoffStore.Store.MakeFresh: names are drawn up to 10000 times, as the library call of the source does, from a stream of fresh names.
- Handoff.ScanTree: one scan of one tree is one step; a scan of a tree that another process changes is not used for any conclusion.
- HandoffLayout.SortByDepth: the order within one depth is left open.
- ClosedSets.DigestClosedSet: the entries come in path order; sorting them is not modelled.
- KernelBundle.NewBundle: errors are counted, their texts are not modelled; release and repository are copied. Lists that are empty and lists that are absent are the same.
- KernelEvidence.CheckRecords: selector values are trimmed of ASCII space only; other Unicode white space at their ends is not modelled.
- Sorting.SortSorts: sorting is a stable insertion; accepted inputs have no ties, so any sort gives the same result.
- ConfigFiles.LoadFiles: decoding, the strict decoding of the merged document, home expansion and the text of problems are not modelled. Two files whose versions conflict cannot both state version 1, so the comparison of versions does not change what is accepted.
- ConfigProfile.SetProfile: reading, following links and replacing the file are not modelled; profiles are blank when they hold ASCII white space only; merge keys count as ordinary keys; line and column numbers are not modelled. An empty document gets its root in place instead of being parsed again.
- Touchscreen.WalkDeviceTree: the directory tree is one fixed view and lists no name twice; cancellation is not modelled. Names and contents are byte strings.
- Touchscreen.InspectController: property values are trimmed of ASCII white space and lowered in ASCII.
- MountInfo.ParseEntry: text is a sequence of Unicode characters; names that are not valid UTF-8 are not modelled.
- KernelRank.GreaterThan: ranks are parsed by `KernelRank.ParseKernelRank`, a grammar written out for the two regular expressions of the source.
- BootMenu.Register: only the decision; receipts, mounts, loader digests, backups and the replacement of the file are not modelled.
- `projectValues`, `ValidateSchemaVersion`, `HasSharedSelectionRoutes`, the store's `List`, the SPI and input probes, the check texts and the command line would only add easy members.
