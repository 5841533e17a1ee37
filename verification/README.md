# Verified models of the Codex Coding OS transactions

This project models the parts of the repository that must not lose data when they are interrupted, and the decision
logic around them, and proves properties of the models with Dafny 4.11 (`dafny verify dfyconfig.toml`).

* `InstallModel` and `InstallTransaction`: the journaled install and uninstall transaction. One object is the disk of
  one machine together with the process working on it. Every durable step can be interrupted by an exception or a
  power cut; the disk survives, the memory does not. The invariant `Sound` ties live paths, commit pointer, journals,
  rollback slots and retained backups to the replay of all committed transactions.
* `HooksConfiguration`: merging one owned group into a user's `hooks.json` and taking it out again.
* `BundleDigest`: the byte stream a bundle inventory is digested as.
* `JsonPointer`, `ConfigFingerprint`, `ConfigProjection`, `ConfigControls`: from a configuration to its capability
  controls, to one typed leaf per JSON pointer (RFC 6901), and to one descriptor per leaf; `ConfigReports`: what those
  leaves say of the configuration, section by section.
* `AuthorityGenerations`: immutable generations behind one compare-and-swap pointer, begin and terminal records, replay.
* `SemVer`, `AuthorityUpdate`: version order, the decomposition of a simultaneous update, and the plan a rebuilt
  manifest must match.
* `AuthorityVersions`: what the two together say of the generations the pointer went through.
* `RouterDeployment`: a write-ahead journal over many files while an outside writer may change live files at any step.
* `SingleFilePromoters`: the routing-policy materializer and the worker-runtime BOM promoter, with an outside writer.
* `Surroundings`: what happens around a transaction step by step: outside writes, failing steps, power cuts. Both
  transactions with outside writers keep a ghost log of all changes; `Accounted` says of every step that outside writes
  pass from the script to the log one for one, so every other change in the log is the transaction's own.
* `PolicyOverlay`: the in-place overlay language with selectors, anchors and uniqueness rules.
* `Wrappers`, `Decimals`: shared result types and decimal numerals.

## Assumptions

* Digests are collision-free: content, canonical JSON and byte streams stand for their own digests.
* One rename, one copy, one atomic file write, one removal of a file, tree or directory and one exact-file
  compare-and-replace are single steps: they happen, raise without effect, or never happen. Only the exclusive creation
  of an immutable authority artifact is two steps, because a crash between them leaves a partial file. Failures of
  `fsync` are ignored by the code and are not steps.
* Each step takes one event from a script, so "for every script" is "for every point of interruption".
* One run at a time: locks and named mutexes are taken. An outside writer does not act between the last comparison and
  the replacement that follows it. Installation and hooks have no outside writer inside a transaction; `hooks.json` may
  be edited between transactions.
* A save that only adds descriptive fields to a journal is not a step of its own.
* The update classifier is an arbitrary relation between authority snapshots; `AuthorityVersions` assumes of it only that
  a recognized step is an update of one of the lanes (`ClassifierDecides`).
* An automatic update is measured against the manifest the generation pointer names, or a given one before there is a
  pointer (`Baseline`); which file the index module actually serves is not part of this model.
* Constants without a value (`ORIGIN`, `FOLDED`, `CANONICAL_SKILL`, `PIPE_NAME`, `IDENTITY`, `NORMALIZED`, `ROW_PATH`,
  `SNAPSHOT_OF`, `RECEIPT_OF`, `RECOGNIZED`, `CATALOG_AUTHORITY`, `WELL_SHAPED`, the `..._COHORT` predicates) are
  arbitrary: every statement holds for every value of them.

## Where the code does less than one might expect

* A replayed operator transaction can be reported as interrupted before its commit although it did commit, when a later
  transaction was promoted over it first; `WhenInterruptedIsWrong` gives the exact condition on the store and
  `CommittedYetInterrupted` a store.
* Version comparison folds upper case: it is the precedence of section 11 of SemVer 2.0.0 between the lower-case forms
  (`ComparisonIsFoldedPrecedence`), and every version text with an upper-case letter in a prerelease identifier is taken
  for its lower-case form, which the standard puts after it (`UpperCaseIsFolded`).
* Removal restores a `hooks.json` exactly only when it is plain (`RoundTripIsExact`): empty groups and an empty list under
  the owned event are not kept. Order is stated per event, because the file is written with sorted keys.
* An overlay can leave two equal unique keys in a collection it inserted an object into: a key may be a list, and a later
  `insert_unique` may append to it (`KeysCanCollide`). `TouchedKeysStayDistinct` says which overlays are safe on every
  base, `KeysStayDistinctExactly` which guard is missing.
* The materializer rolls back by content alone. Cut off between recording PRECONDITION_FAILED and writing its receipt, a
  retry treats new content that another writer put there as its own (`PolicyFile.Recover`, `ForeignContentTaken`). The
  router deployment, which keeps a flag per file, does not.
* When a step raises inside a rollback that finds the new content, the single-file promoters end with the new content and
  no success receipt; `PolicyFile.Apply` and `BomFile.Apply` say that this is the only way, `PolicyRollbackRaises` and
  `BomRollbackRaises` are runs. The router deployment likewise ends under a final rollback-failed receipt with files not
  at baseline when a step of its rollback raises before it has reached a new file: `Deployment.Deploy` says exactly when,
  `DeployRollbackRaises` is a run.

## Model

| member | source | states |
|---|---|---|
| `InstallTransaction.Installation.Run` | scripts/install_transaction.py:3608-3840 | any sequence of install and uninstall commands, each interrupted by an exception or a power cut at any step or not at all, is a trace of sound durable states |
| `InstallTransaction.Installation.Execute` | scripts/install_transaction.py:3608-3840 | one command keeps the durable state sound and the history of closed journals; while a journal needs a human nothing changes; success means that exactly one journal was added, closed as COMMITTED (or NOOP for an unchanged reinstallation) over the pointer that recovery left, unless there was nothing to uninstall; uninterrupted, after any interruption whose recovery attempt is unspent, the recovery and the transaction of the command itself both succeed |
| `InstallModel.RunIsAllOrNothing` | scripts/install_transaction.py:3320-3360 | in every state of every run with every journal closed, live paths and commit pointer are exactly the committed transactions replayed in order; COMMITTED means the new pointer and every target new, ROLLED_BACK and NOOP the old pointer and every target old |
| `InstallModel.RunMixesOnlyWhileOpen` | scripts/install_transaction.py:3062-3135 | in every state of every run a target holds its prior content, its new content or nothing, a mixture of old and new occurs only under an open journal, and only the newest journal can be open |
| `InstallModel.RunKeepsPriorContent` | scripts/install_transaction.py:3062-3246 | in every state of every run the prior content of every originally present target is live, set aside or retained while its journal is open and retained for good after a commit; a rollback slot is given up only when its content is live again or all prior content is retained |
| `InstallModel.ReplacedLookups` | scripts/install_transaction.py:3807-3831 | a replayed transaction leaves each of its targets at its new content and every other path alone |
| `InstallModel.ClosedTells` | scripts/install_transaction.py:3807-3831 | COMMITTED means the new pointer and every target new; ROLLED_BACK and NOOP mean the old pointer and every target old |
| `InstallModel.RollbackConverges` | scripts/install_transaction.py:3164-3205 | rollback repeated after having been cut off anywhere ends in the same live paths, pointer and empty rollback slots |
| `InstallModel.OneRecoveryAttempt` | scripts/install_transaction.py:3340-3346 | over any run, once the recovery attempt of a journal is on record no command moves a path, the pointer or a copy or begins anything while that journal stays open |
| `InstallModel.FailedForever` | scripts/install_transaction.py:3325-3334 | over any run, once a journal is RECOVERY_FAILED no later command changes anything |
| `InstallModel.CommitIsFinal` | scripts/install_transaction.py:3208-3246 | over any run a committed journal never changes and its retained backups are never lost |
| `InstallModel.HistoryOfRun` | scripts/install_transaction.py:3320-3360 | over any run journals are only added and closed journals are never touched again |
| `InstallTransaction.CommittedPlan` | scripts/install_transaction.py:3725-3806 | a committed install or uninstall leaves every planned path at exactly its staged content or absent and every other path as it was |
| `InstallTransaction.Installation.Save` | scripts/install_transaction.py:1312-1314 | the journal file becomes the copy in memory or stays as it was |
| `InstallTransaction.Installation.RecordStep` | scripts/install_transaction.py:3104-3121 | saving a step changes no slot of any target |
| `InstallTransaction.Installation.SetAside` | scripts/install_transaction.py:3087-3103 | the prior content is moved or copied aside exactly when the live target still is the prior content; nothing else changes |
| `InstallTransaction.Installation.BringIn` | scripts/install_transaction.py:3106-3119 | the staged content becomes live exactly when it is the recorded one, by rename or by compare-and-replace |
| `InstallTransaction.Installation.PromoteOne` | scripts/install_transaction.py:3073-3126 | promotion of one target, cut off anywhere, leaves a recoverable slot; completed, it leaves the new content live and the prior content aside |
| `InstallTransaction.Installation.PromoteTargets` | scripts/install_transaction.py:3062-3135 | promotion of any number of targets, cut off anywhere, stays recoverable; completed, every target is new with its prior content aside |
| `InstallTransaction.Installation.RestoreOne` | scripts/install_transaction.py:3166-3195 | deciding from content alone, one target is put back from every recoverable position; foreign content is never removed |
| `InstallTransaction.Installation.RemoveLive` | scripts/install_transaction.py:3182-3184 | only content that is the prior or the new content of the target is removed |
| `InstallTransaction.Installation.RestorePreviousPointer` | scripts/install_transaction.py:3145-3161 | the pointer becomes the previous one unless somebody else wrote it |
| `InstallTransaction.Installation.RestoreTargets` | scripts/install_transaction.py:3166-3195 | every target is back at its prior content with its slot given back; foreign content is kept |
| `InstallTransaction.Installation.RollbackTargets` | scripts/install_transaction.py:3164-3205 | an uninterrupted rollback of a recoverable transaction succeeds; an interrupted one stays recoverable; a refused one is marked RECOVERY_FAILED |
| `InstallTransaction.Installation.KeepCopy` | scripts/install_transaction.py:3221-3228 | a retained copy is made or verified to be the prior content |
| `InstallTransaction.Installation.RetainBackups` | scripts/install_transaction.py:3216-3230 | a verified copy of everything set aside is retained, whatever was retained before stays |
| `InstallTransaction.Installation.RemoveWorkspaces` | scripts/install_transaction.py:3231-3241 | stage, rollback and workspace removal leaves nothing staged or set aside of the transaction and touches nothing else |
| `InstallTransaction.Installation.RetainAndCleanup` | scripts/install_transaction.py:3208-3246 | after a commit no rollback slot goes before every backup is retained; live paths and pointer do not change; the journal is closed |
| `InstallTransaction.Installation.ConfirmTargets` | scripts/install_transaction.py:3350-3356 | a committed transaction goes forward only with every target at its new content |
| `InstallTransaction.Installation.CompleteCommit` | scripts/install_transaction.py:3821-3826 | from the commit point on, every interruption leaves the transaction committed, sound and resumable |
| `InstallTransaction.Installation.Resolve` | scripts/install_transaction.py:3349-3360 | forward exactly when the new pointer is on disk, back otherwise |
| `InstallTransaction.Installation.ScanJournals` | scripts/install_transaction.py:3324-3333 | exactly the journals in progress and exactly the failed ones are found, in order |
| `InstallTransaction.Installation.RecoverLoaded` | scripts/install_transaction.py:3340-3360 | an attempt already spent changes only the journal; a fresh one is recorded before anything moves; success closes the journal in the direction the pointer on disk decides and leaves the pointer that goes with it |
| `InstallTransaction.Installation.RecoverPending` | scripts/install_transaction.py:3320-3360 | recovery closes the interrupted journal, in the direction the pointer on disk decides, or refuses; it refuses everything while a journal needs a human |
| `InstallTransaction.Installation.Begin` | scripts/install_transaction.py:3635-3670 | a new journal records the current pointer and is the only change |
| `InstallTransaction.Installation.BindPlan` | scripts/install_transaction.py:3740-3757 | targets with the content found live and the new pointer are saved before anything moves |
| `InstallTransaction.Installation.BindTargets` | scripts/install_transaction.py:4100-4108 | uninstall saves its targets before its pointer is known |
| `InstallTransaction.Installation.WritePointer` | scripts/install_transaction.py:3820 | the single pointer write takes the transaction from before to after its commit |
| `InstallTransaction.Installation.PromoteAndCommit` | scripts/install_transaction.py:3758-3820 | the pointer is written only after every target was verified new |
| `InstallTransaction.Installation.CloseUnchanged` | scripts/install_transaction.py:3705-3724 | a verified reinstallation closes as NOOP without moving anything |
| `InstallTransaction.Installation.InstallBody` | scripts/install_transaction.py:3671-3826 | an install body ends committed, closed as NOOP, or resumable |
| `InstallTransaction.Installation.UninstallBody` | scripts/install_transaction.py:3990-4136 | an uninstall body ends committed or resumable |
| `InstallTransaction.Installation.Finish` | scripts/install_transaction.py:3808-3840 | an exception after the commit point ends committed, any other is undone and raised again |
| `InstallTransaction.Installation.Transact` | scripts/install_transaction.py:3635-3840 | one transaction, whatever interrupts it, ends in a sound state with at most one journal added; success adds exactly one, closed with the status of the command over the pointer found |
| `InstallModel.PointerDecides` | scripts/install_transaction.py:3138-3142 | before its commit a transaction never finds its own new pointer on disk |
| `InstallModel.NewIsReplaced` | scripts/install_transaction.py:3807-3831 | after the commit the view is the view before with every target replaced |
| `InstallModel.PriorIsBase` | scripts/install_transaction.py:3164-3205 | prior content everywhere and the previous pointer is the view before the transaction |
| `HooksConfiguration.Lifecycle` | scripts/install_transaction.py:2341-2415 | from a user file through installation, any reinstallations and any edits of unrelated groups, to removal: what is left is what the user last wrote, command by command in order per event, minus the retired lifecycle commands |
| `HooksConfiguration.RoundTripIsExact` | scripts/install_transaction.py:2195-2224 | installing and removing gives the very same hooks back exactly when there is nothing to strip, no empty group and no empty list under the owned event |
| `HooksConfiguration.EmptyGroupsAreLost` | scripts/install_transaction.py:2203-2221 | an empty group, and an empty list under the owned event, do not survive |
| `HooksConfiguration.HooksFile.Install` | scripts/install_transaction.py:2341-2395 | installation is accepted on an exact condition, leaves the owned group found exactly once, keeps everything outside the hooks, and strips exactly the retired commands |
| `HooksConfiguration.HooksFile.Uninstall` | scripts/install_transaction.py:2398-2415 | removal is accepted on an exact condition, keeps every unrelated command in order, and deletes the file exactly when it held nothing before and holds nothing now |
| `HooksConfiguration.HooksFile.Live` | scripts/install_transaction.py:2341-2395 | any interleaving of reinstallations and unrelated edits keeps the owned group unique and the user commands those last written |
| `HooksConfiguration.HooksFile.Edit` | scripts/install_transaction.py:2299-2317 | an edit around the owned group leaves it found exactly once |
| `HooksConfiguration.Editor.RemoveOwned` | scripts/install_transaction.py:2299-2317 | exactly the one group equal to the recorded one is deleted; any other count is refused |
| `HooksConfiguration.Editor.StripLegacy` | scripts/install_transaction.py:2195-2224 | every event is stripped; events are dropped only when something was removed and nothing is left |
| `HooksConfiguration.Editor.StripGroups` | scripts/install_transaction.py:2203-2221 | groups keep their surviving commands, empty groups go |
| `HooksConfiguration.StrippingKeepsOthers` | scripts/install_transaction.py:2195-2224 | stripping removes exactly the retired commands and keeps all others in order |
| `HooksConfiguration.StrippedEvents` | scripts/install_transaction.py:2195-2224 | an event goes exactly when it had a retired command and has no other one |
| `HooksConfiguration.AppendedThenRemoved` | scripts/install_transaction.py:2365-2367 | the appended group is found exactly once and removing it gives the groups back |
| `HooksConfiguration.PlacedThenRemoved` | scripts/install_transaction.py:2299-2317 | wherever the user moves the owned group, removing it gives the user groups back |
| `HooksConfiguration.KeptAllGroups` | scripts/install_transaction.py:2195-2224 | stripping changes a list of groups exactly when it has a retired command or an empty group |
| `BundleDigest.AggregateIsInventory` | scripts/install_transaction.py:674-689 | inventories of distinct normalized NUL-free paths share an aggregate exactly when they list the same path, size and hash triples |
| `BundleDigest.StreamIsReadable` | scripts/install_transaction.py:684-688 | the byte encoding is uniquely decodable for NUL-free paths |
| `BundleDigest.HeadIsReadable` | scripts/install_transaction.py:684-688 | the first triple can be read off the front of the stream |
| `BundleDigest.OrderDoesNotMatter` | scripts/install_transaction.py:677 | inventories with the same distinct entries are digested in the same order |
| `BundleDigest.SortedInOrder` | scripts/install_transaction.py:677 | sorting yields the same entries in byte order of their paths |
| `BundleDigest.Aggregate` | scripts/install_transaction.py:674-689 | the digest is fed exactly the domain and the encoded entries in order; the inventory is refused exactly when some entry has an unsafe path, a negative size or a hash of another length |
| `BundleDigest.SpellingDoesNotShow` | scripts/install_transaction.py:677-688 | a triple contributes the normal form of its path, NUL, its size in decimal, NUL and its hash; how the path is spelled does not show |
| `ConfigFingerprint.FingerprintIsTree` | capability-routing/reference-runtime/capability_config_fingerprint.py:439-474 | two control tables have equal leaf maps exactly when they are equal after deleting empty sub-tables, whatever their keys look like |
| `ConfigFingerprint.LeavesAreTree` | capability-routing/reference-runtime/capability_config_fingerprint.py:451-468 | the leaves determine the tree up to empty sub-tables and nothing more |
| `ConfigFingerprint.LeavesDetermine` | capability-routing/reference-runtime/capability_config_fingerprint.py:451-468 | trees without empty sub-tables are determined by their leaves |
| `ConfigFingerprint.PruningKeepsLeaves` | capability-routing/reference-runtime/capability_config_fingerprint.py:457-461 | an empty sub-table contributes no leaf |
| `ConfigFingerprint.ArraysShow` | capability-routing/reference-runtime/capability_config_fingerprint.py:462-467 | only an array records a length, even beside a table key that looks like the array mark |
| `ConfigFingerprint.LeafMap.Walk` | capability-routing/reference-runtime/capability_config_fingerprint.py:451-468 | the walk writes exactly the leaves of the node, each below its path |
| `ConfigFingerprint.LeafHashes` | capability-routing/reference-runtime/capability_config_fingerprint.py:439-474 | the flat form holds exactly the leaves of the tree by their pointers |
| `Decimals.DecimalIsInjective` | capability-routing/reference-runtime/capability_config_fingerprint.py:466-467 | different array indices are written differently |
| `JsonPointer.PointerRoundTrip` | capability-routing/reference-runtime/capability_config_fingerprint.py:435-483 | every non-empty key path is read back from its pointer (RFC 6901 sections 3 and 4) |
| `JsonPointer.EscapeRoundTrip` | capability-routing/reference-runtime/capability_config_fingerprint.py:435-436 | unescaping undoes escaping, and no escaped segment holds a separator |
| `JsonPointer.EscapeIsCharByChar` | capability-routing/reference-runtime/capability_config_fingerprint.py:435-436 | a segment is escaped character by character: ~ becomes ~0, / becomes ~1, every other character stays (RFC 6901 section 3) |
| `JsonPointer.PointerIsInjective` | capability-routing/reference-runtime/capability_config_fingerprint.py:444-445 | different key paths have different pointers |
| `ConfigProjection.ProjectTable` | capability-routing/reference-runtime/capability_config_fingerprint.py:157-174 | a keyed table is accepted exactly when every key folds to a name of its own and every row is acceptable, and is projected row by row |
| `ConfigProjection.ProjectSkills` | capability-routing/reference-runtime/capability_config_fingerprint.py:354-377 | skill items are keyed by canonical path and two items may not share one |
| `ConfigProjection.Project` | capability-routing/reference-runtime/capability_config_fingerprint.py:399-423 | exactly the configurations with known roots and acceptable sections are projected, section by section |
| `ConfigControls.Descriptors` | capability-routing/reference-runtime/capability_config_fingerprint.py:502-623 | a projection is described exactly when every leaf has a descriptor, and then every leaf by its own path and nothing else |
| `ConfigControls.Describe` | capability-routing/reference-runtime/capability_config_fingerprint.py:502-623 | a configuration is described exactly when it projects; the missing-descriptor error is never reached |
| `ConfigControls.EveryLeafDescribed` | capability-routing/reference-runtime/capability_config_fingerprint.py:512-622 | every leaf of a control tree has a descriptor, and a toggle reports the flag of its leaf |
| `ConfigControls.AcceptedIsControlTree` | capability-routing/reference-runtime/capability_config_fingerprint.py:399-423 | every accepted configuration projects to a tree of the expected shape |
| `ConfigControls.AcceptedIsDescribed` | capability-routing/reference-runtime/capability_config_fingerprint.py:616-622 | every leaf of every accepted configuration has exactly one descriptor with the flag that is in the tree |
| `ConfigControls.ConfiguredIsReported` | capability-routing/reference-runtime/capability_config_fingerprint.py:177-342 | what the configuration says of an app, server or plugin, or leaves to the default, is what the descriptor of its folded name reports |
| `ConfigReports.NormalizedLeaf` | capability-routing/reference-runtime/capability_config_fingerprint.py:99-145 | normalization changes no leaf at any path but the session pipe, which becomes the same leaf in every session |
| `ConfigReports.NothingOdd` | capability-routing/reference-runtime/capability_config_fingerprint.py:99-145 | no number that is not finite gets into the controls, and no session pipe but at its place |
| `ConfigReports.OnlyClassified` | capability-routing/reference-runtime/capability_config_fingerprint.py:157-342 | of an app, server or plugin in an accepted configuration every key is a classified one, every switch is a flag, parts included, and no two rows share a folded name |
| `ConfigReports.FeaturesReported` | capability-routing/reference-runtime/capability_config_fingerprint.py:222-238 | a feature is reported with the flag it is configured with, and no other feature is |
| `ConfigReports.HooksReported` | capability-routing/reference-runtime/capability_config_fingerprint.py:241-246 | hooks are reported as configured, at every path, except their state |
| `ConfigReports.ShellReported` | capability-routing/reference-runtime/capability_config_fingerprint.py:380-396 | the routing variables of the shell environment are reported as configured, the others not at all |
| `ConfigReports.SkillsExactly` | capability-routing/reference-runtime/capability_config_fingerprint.py:354-377 | a skills array is accepted exactly when each row has a canonical path of its own and a flag; then every path is kept with the flag of its row, and no other |
| `ConfigReports.SkillsReported` | capability-routing/reference-runtime/capability_config_fingerprint.py:354-377 | every skill row of an accepted configuration is reported under its canonical path by a toggle with its flag, and no other path is reported |
| `ConfigReports.GatesReported` | capability-routing/reference-runtime/capability_config_fingerprint.py:212-218 | the gates of an app are reported as configured, when configured |
| `ConfigReports.PartsReported` | capability-routing/reference-runtime/capability_config_fingerprint.py:193-211 | the tools of apps and servers and the servers of plugins are reported under their folded names with the flags they have |
| `ConfigReports.RuntimeReported` | capability-routing/reference-runtime/capability_config_fingerprint.py:294-306 | what a server runs is reported as configured at every path, the session pipe aside |
| `ConfigReports.ManagedReported` | capability-routing/reference-runtime/capability_config_fingerprint.py:260-277 | a server is reported as managed by the gateway exactly when it says so, and then it is switched off |
| `AuthorityGenerations.Authority.Run` | capability-routing/reference-runtime/capability_manifest_recovery.py:658-751 | over any calls and crashes the pointer history only grows, heads a sound chain, names no transaction twice, and no artifact or record is rewritten |
| `AuthorityGenerations.CurrentHeadsChain` | capability-routing/reference-runtime/capability_manifest_recovery.py:195-259 | the current pointer heads a chain of present artifacts as long as its sequence number, falling by one down to one, and always reads back as valid |
| `AuthorityGenerations.HistoryIsChain` | capability-routing/reference-runtime/capability_manifest_recovery.py:658-751 | every pointer ever written heads such a chain |
| `AuthorityGenerations.IdsAreDistinct` | capability-routing/reference-runtime/capability_manifest_recovery.py:195-259 | no two generations of the chain share an identifier |
| `AuthorityGenerations.HistoryGrows` | capability-routing/reference-runtime/capability_manifest_recovery.py:724-744 | one swap under the compare-and-swap conditions extends the chain and, for a fresh transaction, keeps every transaction at one swap |
| `AuthorityGenerations.Authority.WriteOnce` | capability-routing/reference-runtime/capability_manifest_recovery.py:177-192 | an existing file is never changed, different bytes are refused, a crash leaves at most a partial file |
| `AuthorityGenerations.Authority.Promote` | capability-routing/reference-runtime/capability_manifest_recovery.py:658-751 | promotion either repeats the current one, or swaps once under the compare-and-swap conditions, or changes nothing but adds an artifact |
| `AuthorityGenerations.Authority.Swap` | capability-routing/reference-runtime/capability_manifest_recovery.py:733-751 | the swap is all or nothing and nothing after it turns it into an error |
| `AuthorityGenerations.Authority.WriteBegin` | capability-routing/reference-runtime/capability_manifest_recovery.py:345-411 | a begin record is durable or refused and no other record changes |
| `AuthorityGenerations.Authority.WriteTerminal` | capability-routing/reference-runtime/capability_manifest_recovery.py:414-469 | a terminal record is durable or refused and no other record changes |
| `AuthorityGenerations.Authority.Replay` | capability-routing/reference-runtime/capability_manifest_recovery.py:472-655 | a repeated request is answered from the durable records, touches neither pointer nor artifacts, and says rebuilt only of the current generation |
| `AuthorityGenerations.Authority.Attempt` | capability-routing/reference-runtime/capability_manifest_recovery.py:6048-6066 | a reviewed promotion commits only if the authority is still the reviewed one, and then the current generation is exactly the begun one; it is denied exactly when the final reading differs, and uninterrupted it commits whenever the artifact is new |
| `AuthorityGenerations.Authority.Rebaseline` | capability-routing/reference-runtime/capability_manifest_recovery.py:5892-6150 | one call swaps at most once and only for a transaction that never began; it says rebuilt exactly of a swap it made or a replay that proves it; uninterrupted, a fresh request whose readings, reviewed bytes and candidate all fit is answered rebuilt with its own generation current, the history one longer and begin and commit records durable; each refusal is given only under its own guard |
| `AuthorityGenerations.Authority.Apply` | capability-routing/reference-runtime/capability_manifest_recovery.py:6010-6150 | the same for an accepted request: uninterrupted it is rebuilt if the final reading is the reviewed one and declined as changed otherwise |
| `AuthorityGenerations.RepeatedRequest` | capability-routing/reference-runtime/capability_manifest_recovery.py:5892-6150 | an accepted request that is repeated gets the same answer again and nothing changes |
| `AuthorityGenerations.Authority.Automate` | capability-routing/reference-runtime/capability_manifest_recovery.py:5120-5560 | an automatic recovery under a fresh identifier swaps at most once; it does so only for a quiet, twice recognized update measured against the current generation, built for exactly the reading that still stands; it answers rebuilt exactly when it swapped, names each refusal by its cause, and uninterrupted it always swaps for such an update |
| `AuthorityGenerations.Authority.TryUpdate` | capability-routing/reference-runtime/capability_manifest_recovery.py:5229-5395 | the candidate is promoted only when the final reading, its receipt and its validation agree, and the call answers rebuilt exactly when it was |
| `AuthorityVersions.PromotedVersionsNeverDecrease` | capability-routing/reference-runtime/capability_manifest_recovery.py:2816-2843 | in every state of every run, along any stretch of generations promoted by automatic lanes neither the app version nor the primary-runtime version decreases |
| `AuthorityGenerations.ReplayIsHonest` | capability-routing/reference-runtime/capability_manifest_recovery.py:521-641 | replay says rebuilt only when transaction, previous link and artifact of the current pointer all match the durable begin record |
| `AuthorityGenerations.ReplayTells` | capability-routing/reference-runtime/capability_manifest_recovery.py:472-641 | what the durable records answer: a conflict for another request, rebuilt or unproven for the current generation with or without its terminal record |
| `AuthorityGenerations.ClosedReplay` | capability-routing/reference-runtime/capability_manifest_recovery.py:521-603 | a transaction closed without a commit keeps the answer of its terminal record |
| `AuthorityGenerations.WhenInterruptedIsWrong` | capability-routing/reference-runtime/capability_manifest_recovery.py:604-655 | an open transaction is reported as interrupted before commit exactly when it is not current; it was committed all the same exactly when some artifact on the chain of previous links below the current generation carries it |
| `AuthorityGenerations.ChainTellsHistory` | capability-routing/reference-runtime/capability_manifest_recovery.py:262-266 | the artifacts on the chain of previous links carry exactly the transactions ever promoted up to their head |
| `AuthorityGenerations.CommittedYetInterrupted` | capability-routing/reference-runtime/capability_manifest_recovery.py:642-655 | such a store exists: an operator commit cut off before its terminal record, with all its evidence, under a later automatic one |
| `SemVer.KeysAreOrdered` | capability-routing/reference-runtime/capability_manifest_recovery.py:1847-1861 | version keys are totally ordered |
| `SemVer.TextIsParsed` | capability-routing/reference-runtime/capability_manifest_recovery.py:1847-1861 | three decimal numbers joined by dots, with or without a dotted prerelease and build text, are read as the version with these numbers in this order |
| `SemVer.ParsedExactly` | capability-routing/reference-runtime/capability_manifest_recovery.py:1847-1861 | a text is read as a version exactly when it is such a text of that version |
| `SemVer.ComparisonIsFoldedPrecedence` | capability-routing/reference-runtime/capability_manifest_recovery.py:1847-1861 | on any two version texts the comparison is exactly the precedence of section 11 of SemVer 2.0.0 between their lower-case forms |
| `SemVer.KeysFollowFoldedPrecedence` | capability-routing/reference-runtime/capability_manifest_recovery.py:1847-1861 | the same for versions |
| `SemVer.KeysFollowPrecedence` | capability-routing/reference-runtime/capability_manifest_recovery.py:1847-1861 | on versions with lower-case prerelease identifiers keys compare exactly as section 11 of SemVer 2.0.0 orders them |
| `SemVer.ComparisonIsPrecedence` | capability-routing/reference-runtime/capability_manifest_recovery.py:1847-1861 | the same for version texts without upper-case letters |
| `SemVer.FieldsAreItems` | capability-routing/reference-runtime/capability_manifest_recovery.py:1855-1860 | prerelease fields compare by the first difference, numeric below textual, fewer below more |
| `SemVer.UpperCaseIsFolded` | capability-routing/reference-runtime/capability_manifest_recovery.py:1860 | every version text with an upper-case letter in a prerelease identifier has the key of its lower-case form, although the standard puts it before that form |
| `AuthorityUpdate.VersionsNeverDecrease` | capability-routing/reference-runtime/capability_manifest_recovery.py:2816-2843 | along any sequence of automatic promotions neither the app version nor the primary-runtime version decreases |
| `AuthorityUpdate.NumbersNeverDecrease` | capability-routing/reference-runtime/capability_manifest_recovery.py:2816-2843 | on version texts written with decimal numbers: along any sequence of automatic promotions major, minor and patch do not fall, and a release is not followed by a prerelease of the same numbers |
| `AuthorityUpdate.LaneVersions` | capability-routing/reference-runtime/capability_manifest_recovery.py:1694-1707 | each lane that changes a version raises it strictly, every other lane leaves both alone |
| `AuthorityUpdate.LaneKeeps` | capability-routing/reference-runtime/capability_manifest_recovery.py:2418-2800 | which records each lane leaves alone and which it requires to change |
| `AuthorityUpdate.ReplaceSelected` | capability-routing/reference-runtime/capability_manifest_recovery.py:2329-2350 | selected keys become those of the source, all others are untouched |
| `AuthorityUpdate.Draft.ReplaceAuthority` | capability-routing/reference-runtime/capability_manifest_recovery.py:2318-2350 | package and cache rows of the named packages are replaced, all others are untouched |
| `AuthorityUpdate.Decompose` | capability-routing/reference-runtime/capability_manifest_recovery.py:2353-2415 | the change is taken apart into two partial receipts and their composition unless the scopes overlap |
| `AuthorityUpdate.ClassifyCompound` | capability-routing/reference-runtime/capability_manifest_recovery.py:2418-2451 | a compound update is accepted exactly when the composition is the observed receipt and both parts are updates of their own; then both versions are newer and nothing outside the two scopes changed |
| `AuthorityUpdate.CompoundChangesOnlyScopes` | capability-routing/reference-runtime/capability_manifest_recovery.py:2431-2442 | an accepted compound update changes no package or cache row outside the two scopes |
| `AuthorityUpdate.ScopesAreDisjoint` | capability-routing/reference-runtime/capability_manifest_recovery.py:2358-2369 | no package and no cache row belongs to both scopes of valid receipts |
| `AuthorityUpdate.OrderOfPartsDoesNotMatter` | capability-routing/reference-runtime/capability_manifest_recovery.py:2371-2415 | overlaying the app scope then the runtime scope gives the same receipt as the reverse order |
| `AuthorityUpdate.PlanConfigUpdate` | capability-routing/reference-runtime/capability_manifest_recovery.py:2464-2587 | a plan exists exactly when only configuration leaves changed and each of them switches one known control off; it names exactly the capabilities switched off |
| `AuthorityUpdate.PlanSays` | capability-routing/reference-runtime/capability_manifest_recovery.py:2454-2587 | every changed leaf is an availability toggle of one known control that was on and is off now; only servers and plugins may vanish, only apps, plugin servers and skills may appear; the plan covers what they are bound to |
| `AuthorityUpdate.PlanSaysNoMore` | capability-routing/reference-runtime/capability_manifest_recovery.py:2541-2575 | and nothing is affected or required off but through such a leaf |
| `AuthorityUpdate.CollectUnique` | capability-routing/reference-runtime/capability_manifest_recovery.py:2674-2712 | a list is accepted exactly when no item is malformed and no name occurs twice |
| `AuthorityUpdate.MatchCandidate` | capability-routing/reference-runtime/capability_manifest_recovery.py:2715-2780 | the rebuilt manifest is accepted exactly on the set comparisons with the plan |
| `AuthorityUpdate.UniqueExactly` | capability-routing/reference-runtime/capability_manifest_recovery.py:2674-2712 | a list is accepted exactly when nothing in it is malformed or named twice, and then every name stands for the item that bears it |
| `AuthorityUpdate.AcceptedExactly` | capability-routing/reference-runtime/capability_manifest_recovery.py:2600-2780 | on the lists themselves: a rebuilt manifest is accepted exactly when both are well listed, the entries in force (active and no artifact) are those of before without the affected ones, at least one of which was in force, the suppressions are those of before without the affected ones, and nothing required off or suppressed is in force |
| `AuthorityUpdate.EveryIdHasItsEntry` | capability-routing/reference-runtime/capability_manifest_recovery.py:2760-2765 | comparing by active identifiers and by active entries is the same comparison |
| `AuthorityUpdate.AcceptedSurfaceShrinks` | capability-routing/reference-runtime/capability_manifest_recovery.py:2715-2780 | the candidate keeps exactly the unaffected active entries, unchanged, loses at least one, and suppresses exactly what was suppressed and is unaffected |
| `RouterDeployment.Deployment.Run` | capability-routing/deployment/deploy_router_authority.py:1038-1183 | over any calls, interruptions and outside writes, the log only grows and accounts for every live file; its outside entries are exactly the edits the calls met, in order, and everything else in it is the transaction replacing recorded prior content by the bundle, or exactly the bundle by the prior |
| `RouterDeployment.Deployment.Deploy` | capability-routing/deployment/deploy_router_authority.py:1058-1183 | undisturbed, whichever steps raise in this call and whatever interrupted the earlier ones: a call that ends leaves every file at baseline, or everything deployed under a success receipt, if and only if no rollback raises over new content, a condition on disk and script before the call; a retry that nobody interferes with puts back every flagged, new and backed up file its steps reach, however many others outside writers changed before, and succeeds exactly when none of them has drifted; success is receipted only if at some moment of the call all files were new and all preconditions held; outside edits are logged as such and nothing else is; a receipt is final |
| `RouterDeployment.Deployment.First` | capability-routing/deployment/deploy_router_authority.py:1081-1183 | the same for a first call, with the steps counted: a file is new exactly when its replacement was reached, and success means that everything was seen in place at some moment of the call |
| `RouterDeployment.CutAndRetry` | capability-routing/deployment/deploy_router_authority.py:1058-1090 | a call cut off at any step, after any other interruptions, and one more that nothing interrupts: if there was a journal, all files and directories are at baseline |
| `RouterDeployment.InterruptedRuns` | capability-routing/deployment/deploy_router_authority.py:1058-1090 | any number of calls cut off by power failures and one that nothing interrupts end at baseline or deployed, with a receipt |
| `RouterDeployment.CutAfterCompleted` | capability-routing/deployment/deploy_router_authority.py:1146-1150 | power cut after COMPLETED and before the receipt: every file is new, and the retry puts everything back |
| `RouterDeployment.DeployRollbackRaises` | capability-routing/deployment/deploy_router_authority.py:998-1010 | a run that does not settle: cut off after the replacement, its retry raises in the rollback and ends under a rollback-failed receipt with the file not at baseline |
| `RouterDeployment.UndoExactly` | capability-routing/deployment/deploy_router_authority.py:955-996 | what a rollback achieves: everything is at baseline exactly when no step raises before the last file that has to be put back is reached |
| `RouterDeployment.Deployment.Handle` | capability-routing/deployment/deploy_router_authority.py:1151-1183 | after an exception of the body, undisturbed: every file is at baseline if and only if no step of the rollback raises before it has reached them, and with no further interruption directories are too; disturbed before, every restorable file that is reached is put back all the same; before the bundle is bound nothing is receipted |
| `RouterDeployment.Deployment.PutBack` | capability-routing/deployment/deploy_router_authority.py:981-996 | the bundle content of one file becomes its recorded prior |
| `RouterDeployment.Deployment.RestoreRecord` | capability-routing/deployment/deploy_router_authority.py:956-996 | one file is put back exactly when its record is flagged, it holds exactly the bundle content and its backup is there, whatever outside writers did; undisturbed, it is back at its baseline exactly when the step goes through |
| `RouterDeployment.Deployment.RestoreTargets` | capability-routing/deployment/deploy_router_authority.py:956-996 | undisturbed, exactly the files reached before a step raised are back at their baseline, last one first; disturbed, every file that is reached, flagged, exactly new and backed up is put back and no other is changed, however many others have drifted, and drift is reported exactly when there is any |
| `RouterDeployment.Deployment.RemoveCreated` | capability-routing/deployment/deploy_router_authority.py:935-947 | only created directories are removed, and undisturbed all of them |
| `RouterDeployment.Deployment.Rollback` | capability-routing/deployment/deploy_router_authority.py:950-995 | undisturbed, every file is back at baseline if and only if no step raises before the last one that is new; disturbed before, exactly the restorable files that are reached are back at their recorded priors, and an uninterrupted rollback succeeds exactly when no file has drifted |
| `RouterDeployment.Deployment.Undo` | capability-routing/deployment/deploy_router_authority.py:998-1014 | the transaction is undone and receipted, or its failure is, exactly when a step of the rollback raises or, uninterrupted, a file has drifted; restorable files that are reached are put back in either case |
| `RouterDeployment.Deployment.CaptureBaseline` | capability-routing/deployment/deploy_router_authority.py:813-846 | every prior content is recorded and backed up before anything moves |
| `RouterDeployment.Deployment.StageSources` | capability-routing/deployment/deploy_router_authority.py:849-862 | every file is staged at its bundle content |
| `RouterDeployment.Deployment.PrepareDirs` | capability-routing/deployment/deploy_router_authority.py:1121-1130 | nothing may have moved since the baseline: every file was as recorded and every precondition held at some moment of the call; exactly the missing parents are recorded and then created |
| `RouterDeployment.ShallowestFirst` | capability-routing/deployment/deploy_router_authority.py:890 | the missing directories are listed exactly once each, parents before what is below them |
| `RouterDeployment.Deployment.CreateDirs` | capability-routing/deployment/deploy_router_authority.py:893-897 | exactly the recorded directories are added |
| `RouterDeployment.Deployment.Flag` | capability-routing/deployment/deploy_router_authority.py:918-930 | one record is flagged and saved, the others are untouched |
| `RouterDeployment.Deployment.ReplaceLive` | capability-routing/deployment/deploy_router_authority.py:921-923 | the live file is replaced only if it still is the recorded prior content, whatever outside writers did before |
| `RouterDeployment.Deployment.PromoteOne` | capability-routing/deployment/deploy_router_authority.py:905-932 | the journal says so before a file can be new |
| `RouterDeployment.Deployment.PromoteTargets` | capability-routing/deployment/deploy_router_authority.py:905-932 | undisturbed, a file is at its bundle content exactly when its replacement was reached; nothing but promotions happens to live files |
| `RouterDeployment.Deployment.Body` | capability-routing/deployment/deploy_router_authority.py:1093-1150 | a success receipt is written only over content verified at some moment of the call; no file is replaced unless all were as recorded and all preconditions held before |
| `RouterDeployment.Deployment.VerifyAndClose` | capability-routing/deployment/deploy_router_authority.py:1137-1149 | success is receipted only once all files were seen new and all preconditions held at one moment, whatever outside writers do |
| `RouterDeployment.Deployment.PrepareAndPromote` | capability-routing/deployment/deploy_router_authority.py:1109-1136 | nothing but outside edits is logged before a moment at which every file was as recorded and every precondition held |
| `RouterDeployment.Deployment.BindBundle` | capability-routing/deployment/deploy_router_authority.py:1090-1094 | an interruption before the bundle was bound is bound first; no live file is touched |
| `RouterDeployment.Deployment.Recover` | capability-routing/deployment/deploy_router_authority.py:998-1014 | an interrupted transaction is undone, never continued; undisturbed, every file is at baseline if and only if no step of the rollback raises too early; disturbed before, exactly the restorable files that are reached are put back, and an uninterrupted recovery is receipted as recovered exactly when none has drifted |
| `RouterDeployment.AllPriorIsUndone` | capability-routing/deployment/deploy_router_authority.py:950-991 | all targets at their prior content means all live files at baseline |
| `SingleFilePromoters.PolicyFile.Apply` | capability-routing/deployment/materialize_routing_policy.py:756-986 | undisturbed, whichever steps raise in this call and whatever interrupted the earlier ones: a call that ends leaves the expected baseline, or the new content with an applied receipt, if and only if no rollback raises over the new content, a condition on the steps to come; whatever outside writers do, the target is not replaced when the last comparison finds it changed, and an applied receipt means that it was seen new after the replacement; a replayed receipt is refused exactly when the target has drifted from it; a retry makes of the target exactly what the recovery function says, under the receipt that says so |
| `SingleFilePromoters.OneRaiseSettles` | capability-routing/deployment/materialize_routing_policy.py:948-986 | when at most one step raises, only a recovery whose rollback is that step can fail to settle |
| `SingleFilePromoters.PolicyRollbackRaises` | capability-routing/deployment/materialize_routing_policy.py:854-866 | a run that does not settle: cut off after the replacement, its retry raises in the rollback and leaves the new content under a rollback-failed receipt |
| `SingleFilePromoters.PolicyFile.Rollback` | capability-routing/deployment/materialize_routing_policy.py:738-753 | whatever outside writers do, only exactly the new content is ever rolled over, and then it becomes the expected baseline |
| `SingleFilePromoters.PolicyFile.Replace` | capability-routing/deployment/materialize_routing_policy.py:926 | the one replacement of a transaction: it is the only promotion in the log |
| `SingleFilePromoters.PolicyFile.Body` | capability-routing/deployment/materialize_routing_policy.py:889-947 | an applied receipt is written only over verified new content; undisturbed, the target is new exactly when the steps up to the replacement went through |
| `SingleFilePromoters.PolicyFile.Attempt` | capability-routing/deployment/materialize_routing_policy.py:889-986 | the body and its handler: drift that the last comparison sees is left alone and closed as not applicable, any other exception is undone under its receipt |
| `SingleFilePromoters.PolicyFile.CaptureBackup` | capability-routing/deployment/materialize_routing_policy.py:906-910 | the backup is captured and is the expected content, or the transaction is refused |
| `SingleFilePromoters.PolicyFile.UndoAll` | capability-routing/deployment/materialize_routing_policy.py:948-986 | undisturbed, the target is back at the baseline exactly when it was there or the rollback does not raise; without interference the receipt tells exactly whether it is |
| `SingleFilePromoters.PolicyFile.Handle` | capability-routing/deployment/materialize_routing_policy.py:948-986 | the same for the exception path of a first call; a refusal before the promotion over a changed target is recorded as not applicable |
| `SingleFilePromoters.PolicyFile.Stage` | capability-routing/deployment/materialize_routing_policy.py:905-919 | backup and stage are in place before the promotion phase; the backup is the expected content, whatever outside writers do |
| `SingleFilePromoters.PolicyFile.PromoteStaged` | capability-routing/deployment/materialize_routing_policy.py:920-931 | the promotion phase is durable before the target can be new; a target that the last comparison finds changed is not replaced, and success means that the new content was seen in place |
| `SingleFilePromoters.PolicyFile.Recover` | capability-routing/deployment/materialize_routing_policy.py:839-866 | not applicable is recorded only for a transaction that never promoted, all others are undone, under a receipt that tells exactly whether the target is back; a transaction that never promoted takes content of another writer exactly when it was past its pre-promotion phases and finds the new content there |
| `SingleFilePromoters.PolicyFile.Close` | capability-routing/deployment/materialize_routing_policy.py:848-853 | a not-applicable receipt is never written after this transaction replaced the target |
| `SingleFilePromoters.ForeignContentTaken` | capability-routing/deployment/materialize_routing_policy.py:839-866 | a run that does so: a crash between PRECONDITION_FAILED and its receipt lets the retry delete a file that held the new content before the transaction |
| `SingleFilePromoters.BomFile.Apply` | capability-routing/deployment/promote_worker_runtime_bom.py:2122-2238 | undisturbed, whichever steps raise in this call and whatever interrupted the earlier ones: a call that ends leaves the baseline, or the new content with a completed receipt, if and only if no rollback raises over the new content; a replayed receipt succeeds exactly when it says completed and the target still is new; success means that the new content was seen in place; a retry without interference rolls back exactly the candidate with an intact backup, and receipts it exactly then |
| `SingleFilePromoters.OneRaiseSettlesBom` | capability-routing/deployment/promote_worker_runtime_bom.py:2222-2234 | when at most one step raises, only a recovery whose rollback is that step can fail to settle |
| `SingleFilePromoters.BomRollbackRaises` | capability-routing/deployment/promote_worker_runtime_bom.py:2166-2181 | a run that does not settle: cut off after the replacement, its retry raises in the rollback and ends with the new content and no receipt |
| `SingleFilePromoters.BomFile.Rollback` | capability-routing/deployment/promote_worker_runtime_bom.py:2096-2113 | whatever outside writers do, only exactly the candidate is ever rolled over, and then it becomes the expected baseline |
| `SingleFilePromoters.BomFile.Prepare` | capability-routing/deployment/promote_worker_runtime_bom.py:2184-2202 | backup and stage are written before a journal exists |
| `SingleFilePromoters.BomFile.Body` | capability-routing/deployment/promote_worker_runtime_bom.py:2203-2234 | a completed receipt is written only after the new content was seen in place; undisturbed, anything else is taken back if and only if the rollback does not raise over the new content |
| `SingleFilePromoters.BomFile.TakeBack` | capability-routing/deployment/promote_worker_runtime_bom.py:2222-2234 | undisturbed, the target is back at the baseline exactly when it was there or the rollback does not raise; without interference it is receipted exactly when it is back |
| `PolicyOverlay.InsertionsGrow` | capability-routing/deployment/materialize_routing_policy.py:565-572 | any accepted list of insertions keeps every list of the base document as a subsequence and changes nothing else |
| `PolicyOverlay.InsertionsUndone` | capability-routing/deployment/materialize_routing_policy.py:565-572 | any accepted list of insertions is undone by removing the inserted values in reverse order |
| `PolicyOverlay.InsertionUndone` | capability-routing/deployment/materialize_routing_policy.py:475-524 | one insertion is undone by removing its value from its list |
| `PolicyOverlay.SettingsCommute` | capability-routing/deployment/materialize_routing_policy.py:356-367 | two settings on pointers that are not prefixes of each other commute, refusals included |
| `PolicyOverlay.OnlyTheTargetsChange` | capability-routing/deployment/materialize_routing_policy.py:561-572 | an accepted list of operations changes nothing off the lists and members its operations address |
| `PolicyOverlay.OffEveryPointer` | capability-routing/deployment/materialize_routing_policy.py:561-572 | so nothing changes that no pointer of the overlay leads to or into |
| `PolicyOverlay.OnlyTheTargetChanges` | capability-routing/deployment/materialize_routing_policy.py:356-524 | an accepted operation changes nothing off the path it addresses |
| `PolicyOverlay.TouchedKeysStayDistinct` | capability-routing/deployment/materialize_routing_policy.py:497-524 | whatever the base, every collection an accepted list of operations inserts an object into ends with pairwise distinct keys, unless a later operation sets a value above it, inserts into it by another key, or changes values of that key |
| `PolicyOverlay.KeysStayDistinctExactly` | capability-routing/deployment/materialize_routing_policy.py:497-524 | once distinct, the keys of a collection stay distinct after every operation of an accepted list exactly when every operation meets a guard the code does not have |
| `PolicyOverlay.KeysKeptExactly` | capability-routing/deployment/materialize_routing_policy.py:475-524 | one accepted operation keeps the keys of a collection distinct exactly under that guard |
| `PolicyOverlay.KeysCanCollide` | capability-routing/deployment/materialize_routing_policy.py:475-524 | an accepted overlay that leaves two equal keys: the second operation appends to a list that is a key |
| `PolicyOverlay.KeysStayDistinct` | capability-routing/deployment/materialize_routing_policy.py:497-524 | right after inserting an object the keys of its collection are pairwise distinct |
| `PolicyOverlay.InsertedKeys` | capability-routing/deployment/materialize_routing_policy.py:497-524 | the new key stands exactly where it was placed and every key stays unique |
| `PolicyOverlay.TargetStays` | capability-routing/deployment/materialize_routing_policy.py:475-494 | an insertion never moves the list it went to, so it can be found again |
| `PolicyOverlay.Materialize` | capability-routing/deployment/materialize_routing_policy.py:561-572 | exactly the valid overlays whose operations all apply are materialized, in order, and the result is what the operations mean one after the other |
| `PolicyOverlay.ApplyMeans` | capability-routing/deployment/materialize_routing_policy.py:356-524 | an operation is accepted exactly when there is a document it means, and makes that one: a value set, or a value or object added right before or right after the only occurrence of its anchor, or at the end, of the one selected list |
| `PolicyOverlay.ApplyAllMeans` | capability-routing/deployment/materialize_routing_policy.py:561-572 | the same for lists of operations |
| `PolicyOverlay.PlaceIsAnchored` | capability-routing/deployment/materialize_routing_policy.py:468-472 | the place found is the one the anchor means |
| `PolicyOverlay.SignaturesTell` | capability-routing/deployment/materialize_routing_policy.py:400-463 | two operations count as the same edit exactly when they agree in everything but their place |
| `PolicyOverlay.ValidateOverlay` | capability-routing/deployment/materialize_routing_policy.py:383-465 | exactly the non-empty lists of well-formed operations without a repeated edit are valid |
| `PolicyOverlay.Policy.SetExisting` | capability-routing/deployment/materialize_routing_policy.py:356-368 | a setting changes one existing member to a different value; it is refused exactly when there is no such member |
| `PolicyOverlay.Policy.InsertValue` | capability-routing/deployment/materialize_routing_policy.py:475-494 | a value goes right before or right after the only occurrence of its anchor, or to the end, in the one selected list; it is refused exactly when there is no such document |
| `PolicyOverlay.Policy.InsertKeyed` | capability-routing/deployment/materialize_routing_policy.py:497-524 | an object goes right before or right after the object with the anchor key, or to the end, in a list of distinct keys; it is refused exactly when there is no such document |
| `PolicyOverlay.FindOnly` | capability-routing/deployment/materialize_routing_policy.py:468-472 | an anchor is accepted exactly when it occurs exactly once |
| `PolicyOverlay.TokensRoundTrip` | capability-routing/deployment/materialize_routing_policy.py:336-344 | every path of non-empty tokens can be written as a pointer and is read back |

## Left out

- Files, links, devices, path containment, Windows retries, clocks, Git, SQLite, PowerShell and fault-injection hooks.
- The campaign engine, `index.*`, schema validation and `routing_policy_validation.py` are not part of this model; their
  verdicts are parameters or arbitrary predicates.
- Staging, preflight and source verification of an install are one step that may raise; policy blocks in AGENTS.md and
  default.rules are not modelled.
- InstallTransaction.Installation.BindPlan: a failed save leaves the targets and the pointer in memory as they were; the
  code already holds the new ones, of which nothing has moved, so the rollback that follows finds nothing to put back.
- InstallTransaction.Installation.BindTargets: the same after a failed save of the targets of a removal.
- A failed save of a phase before promotion likewise leaves the memory of the run as it was.
- Removing a workspace directory is a step even when the directory does not exist.
- Transaction identifiers of installs are the positions of their journals; identifiers of automatic lanes are unused ones.
- A journal is trusted to have the shape it was written with; the validators of journals, receipts and catalogues, and
  the cohort checks inside one package of each update lane, are arbitrary predicates or left out.
- Unicode normalization and case folding beyond an arbitrary function on names; non-ASCII digits in version texts.
- Overlay paths are given as decoded tokens; Python's equality of 1, 1.0 and True is not modelled.
- RFC 6901 array indices are not needed: configuration arrays are addressed by the walk itself.
- In-memory dictionaries are `map` values held in fields or locals that methods reassign; aliasing between them is not modelled.
- `check-pr-body.py`, `trufflehog_result_gate.py` and the other gates, command lines and rendering.
