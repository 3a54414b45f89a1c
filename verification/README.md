# Brilliant MQTT: provisioning, release admission, repair and control as a verified model

This project models the parts of the Brilliant MQTT integration where state survives failures or where events
interleave, and proves what they promise for every input, every run or every reachable state. Every module is one
component:

* **The crash-safe provisioning transaction.** `PanelState` and `PanelCommands` are a panel and the shell steps of
  `panel_ops` as atomic effects, `Correlation` what the deployment line of an environment file says; a `&&` chain is a
  list that may be cut after any step, and a tree restore that is cut may leave any trees. `Records` is what the two
  stores hold, `Protocol` the transaction as a state machine in which every store write and every shell step is one
  transition, any two may have a crash between them, and other writers may act on any panel at any moment. `Rollback`
  and `Activation` say what complete and interrupted command lists do, `Safety` what holds in every world of every
  run. `Site`, `Journal`, `Operations` and `Provisioner` are the code as it runs, as classes: each effect may succeed,
  fail with or without having taken place, or be the last before a crash. The site keeps the history of worlds, and
  every method of the provisioner proves that its history is a run of the protocol, so the safety theorems hold at
  whatever moment it is cut; its other postconditions say what it achieves, and when nothing goes wrong exactly under
  which conditions. The journal's own methods demand nothing and check only what the stores hold. One lock keeps other
  writers out of a running operation, so they act between methods, each of which starts from any sound world.
* **Release admission.** `ReleaseIdentity` is the ordinal policy, `ReleaseWriters` the admission object and every
  guarded writer with its failure points, `ReleaseTransaction` the same as a class, `ReleaseBounds` what one
  transaction's policy bounds, `ReleaseLiveness` what an undisturbed update ends with, `ReleaseHistory` whole
  deployment histories.
* **Repair and recovery.** `ManagerState` is the panel manager's state machine, one event per stretch between awaits,
  `Manager` its methods, `ManagerSafety` the theorems over all interleavings, `ManagerBehaviour` the same machine read
  the other way round (for each thing an observer sees, exactly which event brings it about and when), `ConnectRetry`
  the bounded connect loop.
* **The control plane.** `CommandCache` and `CommandExecutor` (idempotent commands), `ManifestCommit` (publication
  with the manifest last), `CommandFence` and `ControlPlane` (who may execute commands during attach, detach, stop,
  reload and rebuild), `GateBehaviour` (exactly what opens, closes and fences that gate).
* **Health evidence, the environment file and the configuration handoff**: `PanelHealth`, `EnvFile`, `Handoff`.

A class method is tied to a function of its old state (`Now() == F(old(Now()))`); what the source promises is then
proved about that function, and the method's row names the theorem. `hide` statements only narrow what the solver
looks at.

## What the code does not keep

Where a promise fails, the exact condition is proved beside a lemma with the failing family.

* **Recovery converges** exactly when it is not `Blocked`, a condition on what the stores and the panel hold
  beforehand (`RecoverCurrent`). One way into it needs nothing but a failing write: a restore that was proved and
  saved as rolled back, whose clearing fails, is afterwards marked as a failed rollback, and recovery then refuses it
  every time (`VerifiedRestoreCanStick`; `panel_provisioner.py:1983-1998`, `1622-1632`). The operator may still ask
  that transaction back, and that is not blocked. Another way is an install that is refused because an earlier
  transaction is still retained: by then it has captured a baseline that pins the selected release, so asking the
  earlier transaction back can never delete its own candidate (`Install`, `OrphanCapturePins`;
  `panel_provisioner.py:1193-1251`, `provisioning_journal.py:1201-1215`). Since an install needs a panel that no entry
  owns (`fleet_manager.py:517-542`) and a rollback one that an entry does (`fleet_manager.py:628-648`), it takes a
  panel entry that was removed for the install and is back for the rollback. The other ways are two restore requests
  at once, a restore request for another transaction than the active one, and an ownerless finalization that waits for
  its operator.
* **The panel at the end of a transaction** is exactly what was committed, restored or left alone, unless another
  writer has acted on it since the transaction last established it. Nothing keeps a repair away from a panel whose
  journal is still active (`manager.py:1606-1644`), so `CrashAtomicity` says what then still holds, and what holds
  without it.
* **A pre-ordinal upgrade** happens once per component, plus once for every session that left an old label on it anew
  (`PreOrdinalAtMostOnce`), and such a session had one of these causes (`SessionLabels`): a deploy of that component
  cut between its code and its version file while the bridge ran its fixed tree under a version before 0.11.0; a
  bundle that carries an ordinal under such a version, for it or for the bridge; or it or the bridge had no code, or
  came to run other code without a deploy. What a cut swap leads to is exact (`CutSwapDecides`): the bridge keeps its
  version file, a watchdog's goes with its directory and it then reads as the bridge's release if that is old and as
  unknown otherwise (`bundle_manifest.py:496-511`). Beside an old bridge the next bundle is a pre-ordinal upgrade
  again, so the bound is attained (`TornSwapCountsAgain`, `TornSwapUpgradesTwice`); beside a linked or newer one, and
  the update deploys the bridge first (`manager.py:1866-1876`), every bundle with other code is refused until an
  override (`CutSwapBlocks`).
* **A deploy shows the bundle's code, and known ordinals rise** (`SessionTracks`, `OrdinalsRise`), but for one family,
  which is exact (`DeployShows`): beside a surviving link, a watchdog whose fixed unit is left only as its staged
  copy. That copy lies in the directory the swap moves away (`panel_ops.py:3261`, `3399`), so afterwards the link's
  code is selected, with no override and whatever its ordinal. A firmware update that drops the live units makes such
  a panel, and the relay deploys before it lays the unit again (`manager.py:1338-1400`).
* **An admitted update goes through** for every component whose deploy shows (`WatchdogUpdateCompletes`,
  `BridgeUpdateCompletes`), but for one family: a bridge beside a chosen fixed watchdog without a version file of its
  own. Such a watchdog is read under the old bridge's version (`bundle_manifest.py:496-511`), so once the bridge's
  version file is replaced it reads differently, and the bridge's configuration is refused as a panel that changed
  underneath (`panel_ops.py:448-455`, `2472-2479`). The pre-ordinal update that label was made for therefore stops
  half-way, with new code under the old unit.
* **A handoff that was committed and not yet cleared** when the process died is cleared by the restart if and only if
  the onboarded panel has the scene role (`CommittedRestart`; `fleet_manager.py:1274-1284`). A further panel of a
  fleet never has it, so its committed journal is refused by every restart while another panel keeps that role.
* **A firmware update** leaves a component the code it runs exactly when there is no link or the staged copy of its
  unit agrees with the live one (`WipeSelects`). Every unit writer that is done leaves them in agreement
  (`UnitWriterAgrees`); an activation replaces the live units only, so until the next one of them is done a staged
  fixed unit brings the old code back (`ActivationAgrees`).
* **One service call per command id** holds while its result is cached, for the cache time or until 1024 newer results
  push it out, and a valid, fresh command runs exactly when none is cached (`RunsUnlessCached`). Past the cache time
  it fails in two families, and in no other (`AtMostOneCall`): for every wait for the lifecycle lock longer than 580 s
  a replay of the same message runs again (`SlowLockRunsTwice`), and for every later time an id sent again with a new
  timestamp does, with no wait at all (`ReusedIdRunsTwice`).
* **`bootstrap` installs an absent component at most once** wherever the release link holds all components, which
  promotion checks (`PolicyBounds`, `AbsentInstalledOnce`). A link without the component would hide what is deployed
  for it, the bridge's while it has no fixed unit, a watchdog's while it has no fixed live unit, and then two deploys
  install it twice (`HiddenInstallsTwice`).

## Model

| member | source | states |
|---|---|---|
| PanelState.ProbeReads | custom_components/brilliant_mqtt/panel_ops.py:832-912 | what the snapshot probe reports: a linked release exactly when there is a link and some unit, live or else staged, names a path under it, or no unit is left; absent exactly when nothing the fleet owns is there; fixed otherwise; with the files and the enabled and running services as they are |
| Rollback.CaptureIsSound | custom_components/brilliant_mqtt/panel_ops.py:1158-1207 | a completed capture of a valid snapshot gives a snapshot whose layout, target and baseline fit together, and the panel holds it; nothing else on the panel changes |
| Rollback.RollbackRuns | custom_components/brilliant_mqtt/panel_ops.py:1955-2056 | from any panel that still holds the baseline, a complete rollback succeeds and the result is exactly the snapshot: files, modes, link, enabled and active bits, code |
| Rollback.PrefixKeeps | custom_components/brilliant_mqtt/panel_ops.py:1669-2056 | stopping after any prefix of a deployment or rollback loses no release, no capture and no pin that a later rollback needs |
| Rollback.InterruptedKeeps | custom_components/brilliant_mqtt/panel_ops.py:1955-2056 | any number of interrupted runs, each possibly leaving half-restored trees, keep every snapshot restorable |
| Rollback.RollbackAbsorbs | custom_components/brilliant_mqtt/panel_ops.py:1593-2056 | from any prefix of an activation, then any number of interrupted rollbacks, one complete rollback succeeds, reads back as the snapshot and leaves no temporary of the transaction |
| Activation.ActivationRuns | custom_components/brilliant_mqtt/panel_ops.py:1593-1843 | whatever the panel looked like, an activation that completes leaves exactly the selected files with their modes, the link on the candidate, exactly the selected services enabled and running, each started on these files, their ordinal and no other published, and every release as it was staged |
| Activation.ActivationCompletes | custom_components/brilliant_mqtt/panel_ops.py:1778-1843 | an activation completes from any panel if and only if the promoted release holds every owned file |
| Operations.StageRuns | custom_components/brilliant_mqtt/panel_ops.py:1400-1420 | staging succeeds exactly for a complete upload into a release directory that does not exist yet, and then only that directory is new |
| Operations.StageRelease | custom_components/brilliant_mqtt/panel_ops.py:1449-1590 | only this panel changes, as a run of the protocol; done, the candidate is promoted and unpinned; when nothing fails, done exactly when it can be staged |
| Operations.ActivateStaged | custom_components/brilliant_mqtt/panel_ops.py:1778-1843 | done, the admission still read the same, the staged code was the admitted one and the panel runs exactly the candidate, with every release and its files as staged and the ordinal published for the selected components alone; refused before any write otherwise; when nothing fails, done exactly when that holds and the release is complete |
| Operations.RestartRuns | custom_components/brilliant_mqtt/panel_ops.py:2083-2120 | an activated candidate has the link and the loaded unit that a restart needs |
| Operations.RestartCandidate | custom_components/brilliant_mqtt/panel_ops.py:2083-2120 | done, the bridge was stopped in between and runs again; when nothing fails, an activated candidate is always restarted |
| Operations.RestartRestoredRuns | custom_components/brilliant_mqtt/panel_ops.py:1232-1261 | restarting a restored bridge changes its environment file and one temporary, nothing else; the file keeps every other line in order and ends on its one deployment line, which reads back as the new deployment |
| Operations.RestartedIsPrior | custom_components/brilliant_mqtt/panel_ops.py:1232-1261 | a restored panel restarted under a fresh deployment id still reads as the snapshot, but for the correlation line, which carries exactly that deployment |
| Operations.RestartRestored | custom_components/brilliant_mqtt/panel_ops.py:1232-1261 | done, the panel is the prior state and its environment file carries the new deployment, in one line and the last; when nothing fails, it always succeeds |
| Correlation.CorrelateCarries | custom_components/brilliant_mqtt/panel_ops.py:1232-1261 | the rewritten environment has exactly one deployment line, the last, whose text reads back as the deployment; all other lines stay, in order |
| Correlation.TextReads | custom_components/brilliant_mqtt/panel_ops.py:1240-1250 | the text of a deployment is at least 32 hexadecimal digits that read back as it |
| Correlation.OneDeployment | custom_components/brilliant_mqtt/panel_ops.py:1232-1261 | no file carries two different deployments |
| Operations.RollbackSnapshot | custom_components/brilliant_mqtt/panel_ops.py:1955-2056 | the temporaries are removed whatever happened; done, the panel is exactly the restored one, every running service started anew on what was restored; when nothing fails, it always succeeds |
| Operations.CleanupStaged | custom_components/brilliant_mqtt/panel_ops.py:2059-2080 | done, the candidate is gone and nothing else changed; when nothing fails, it is deleted exactly when it is neither pinned nor selected |
| DurableSite.Site.Attempt | custom_components/brilliant_mqtt/provisioning_journal.py:880-911 | a store write ends with the old world or the new one, and reports success only for the new one |
| DurableSite.Site.Execute | custom_components/brilliant_mqtt/panel_ops.py:751-796 | a shell step reports success only with its whole effect; it deletes a release only when it is the pruning step |
| DurableSite.Site.ExecuteAll | custom_components/brilliant_mqtt/panel_ops.py:751-796 | a command list that reports success had exactly the effect of its steps in order, and when nothing fails it succeeds exactly when they all do |
| Journal.ProvisioningJournal.Create | custom_components/brilliant_mqtt/provisioning_journal.py:1140-1215 | arms the rollback before the staged record is saved, accepting one armed for the same record before; refused, with nothing written, for a record that is not staged, while a journal is active or another transaction is retained for the panel |
| Journal.ProvisioningJournal.Transition | custom_components/brilliant_mqtt/provisioning_journal.py:1325-1343 | takes exactly one approved edge of the current transaction, whatever is on the panel, or changes nothing |
| Journal.ProvisioningJournal.RecordError | custom_components/brilliant_mqtt/provisioning_journal.py:1345-1357 | replaces the recorded failure of the current transaction and never its phase |
| Journal.ProvisioningJournal.SetRetained | custom_components/brilliant_mqtt/provisioning_journal.py:1248-1283 | moves one retained rollback along a permitted edge, whatever else the stores or the panel hold, and keeps earlier evidence unless new is given |
| Journal.ProvisioningJournal.BeginRestore | custom_components/brilliant_mqtt/provisioning_journal.py:1288-1312 | turns a durable restore request, and no other state, into the active rollback record; asking twice is harmless |
| Journal.ProvisioningJournal.CompleteCommit | custom_components/brilliant_mqtt/provisioning_journal.py:1359-1396 | where there is a baseline the retained rollback soaks before committed is saved, and the journal is cleared last; a commit already durable is only cleared |
| Journal.ProvisioningJournal.CompleteRollback | custom_components/brilliant_mqtt/provisioning_journal.py:1398-1415 | on the word of its caller that the rollback was verified, and on no other condition, goes through rolled back to cleared; touches neither the retained map nor a panel |
| Journal.ProvisioningJournal.CompleteCleanup | custom_components/brilliant_mqtt/provisioning_journal.py:1417-1423 | clears a staged transaction, and no other |
| Journal.ProvisioningJournal.CompleteAbsentRollback | custom_components/brilliant_mqtt/provisioning_journal.py:1425-1436 | where there is a baseline records the undone first install as restored before the journal is cleared; only for an absent prior layout |
| Journal.ProvisioningJournal.BeginOwnerlessFinalize | custom_components/brilliant_mqtt/provisioning_journal.py:1229-1246 | marks exactly the expected, proved, ownerless entry and only with no active journal |
| Journal.ProvisioningJournal.RemoveRetained | custom_components/brilliant_mqtt/provisioning_journal.py:1314-1323 | forgets a retained rollback that is finalizing, whatever is on the panel, and no other |
| Safety.StepKeepsInv | custom_components/brilliant_mqtt/panel_provisioner.py:1176-1452 | the joint invariant of journal, retained rollbacks and panels survives every single store write, shell step and step of another writer |
| Safety.RunKeepsInv | custom_components/brilliant_mqtt/panel_provisioner.py:1176-1452 | every crash state of every run satisfies the joint invariant |
| Safety.CrashAtomicity | custom_components/brilliant_mqtt/panel_provisioner.py:1176-2050 | in every run, with crashes and other writers anywhere and any number of recoveries, the journal is cleared only with health observed and the commit durable, or a restore proved and the candidate gone, or the candidate gone unactivated; and unless another writer acted since, with the panel exactly on what was observed, on its prior state, or untouched; the retained rollback is still there and restorable |
| Safety.OutsideKeepsInv | custom_components/brilliant_mqtt/manager.py:1606-1644 | a deployment step of another writer, or one of its code swaps cut half-way, on a panel with or without an active transaction, costs no rollback anything it needs |
| Safety.CorrelationOnly | custom_components/brilliant_mqtt/panel_ops.py:1232-1261 | a restored environment file differs from the captured one in its deployment correlation lines only |
| Safety.StoresAgree | custom_components/brilliant_mqtt/provisioning_journal.py:1140-1436 | in every crash state an active record has a retained entry of the same transaction whose state fits its phase, never finalizing; from verifying on health was observed; no two entries share a panel |
| Safety.Restorable | custom_components/brilliant_mqtt/provisioning_journal.py:1260-1323 | until finalizing is durable, the retained capture is on its panel, intact |
| Safety.ReleasesExist | custom_components/brilliant_mqtt/panel_ops.py:2059-2080 | the release the link names, and every release a retained rollback would link again, exists in every crash state |
| Safety.ReleaseFilesStay | custom_components/brilliant_mqtt/panel_ops.py:1400-1590 | while a release exists, its files are the ones it was promoted with, whatever any run or other writer does |
| Safety.FinalizingOnlyEnds | custom_components/brilliant_mqtt/provisioning_journal.py:1248-1323 | finalizing is left only by removal, and removal comes only after the capture is gone |
| Safety.EdgesPermitted | custom_components/brilliant_mqtt/provisioning_journal.py:246-275 | every phase and retained-state change of every run is a permitted edge; a journal starts staged or as a requested restore, and is cleared from four phases only |
| Provisioner.PanelProvisioner.CaptureSnapshot | custom_components/brilliant_mqtt/panel_provisioner.py:1192-1201 | done, the snapshot is sound, held and equal to what the panel shows; when nothing fails, done exactly when the panel can be captured |
| Provisioner.PanelProvisioner.CreateRecord | custom_components/brilliant_mqtt/panel_provisioner.py:1192-1251 | done, a staged record with the given request, version and time, the right operation, the snapshot of what the panel showed and a directory that did not exist is the active journal and its rollback is armed; when nothing fails, done exactly when the panel can be captured and is not retained; refused, its capture stays |
| Provisioner.PanelProvisioner.InstallAdmitted | custom_components/brilliant_mqtt/panel_provisioner.py:1253-1369 | done, the panel runs exactly the files passed in: they are the release, each installed one is live with its mode, the selected services were started on them, and the ordinal is published; the last phase it saw saved is the journalled one or the one just before it; when nothing fails, verified exactly when staging, preflight, the second admission and health succeed |
| Provisioner.PanelProvisioner.Compensate | custom_components/brilliant_mqtt/panel_provisioner.py:1390-1452 | done, a staged candidate is cleaned up with the panel untouched, and anything later is rolled back to the proved prior state |
| Provisioner.PanelProvisioner.InstallRecord | custom_components/brilliant_mqtt/panel_provisioner.py:900-1175 | done, the panel runs exactly the files passed in, observed healthy; when nothing fails, it succeeds exactly when every answer is yes and the release is complete, and otherwise the panel is untouched or proved restored |
| Provisioner.PanelProvisioner.Install | custom_components/brilliant_mqtt/panel_provisioner.py:848-1175 | done, the active record is for this request, version and time, an install exactly on an absent layout and an upgrade otherwise, its snapshot what the panel showed before, and the panel runs exactly the files passed in under their ordinal; on a clear journal, when nothing fails, it succeeds exactly when the panel is installable and every outside answer is yes, and otherwise leaves no journal; refused because the panel is retained, it leaves nothing but its capture and the pin |
| Provisioner.PanelProvisioner.ManagedUpdate | custom_components/brilliant_mqtt/panel_provisioner.py:990-1069 | done, the panel shows exactly the admitted writes, health was observed and the rollback soaks; when nothing fails, it commits exactly when free, capturable, written and healthy, and is undone otherwise |
| Provisioner.PanelProvisioner.UpdateOrUndo | custom_components/brilliant_mqtt/panel_provisioner.py:1037-1067 | when nothing fails, the journal is always cleared: by the commit exactly when the writes ran and health was seen, else with the prior state proved restored |
| Provisioner.PanelProvisioner.MarkPendingConfigCommit | custom_components/brilliant_mqtt/panel_provisioner.py:1514-1546 | moves a verified transaction to pending, once; when nothing fails, succeeds exactly for a verified or already pending one |
| Provisioner.PanelProvisioner.CompleteConfigCommit | custom_components/brilliant_mqtt/panel_provisioner.py:1548-1570 | done, the rollback soaks, the journal is clear and nothing else changed |
| Provisioner.PanelProvisioner.SettleIntents | custom_components/brilliant_mqtt/panel_provisioner.py:1598-1608 | finishes every interrupted finalization and takes up the one restore request, in whatever order the store lists them, and touches no other entry or panel |
| Provisioner.PanelProvisioner.RecoverCurrent | custom_components/brilliant_mqtt/panel_provisioner.py:1593-1610 | when nothing fails, recovery succeeds if and only if nothing blocks it, and then no journal is left, or one that only waits for its pending flow |
| Provisioner.PanelProvisioner.RecoverRecord | custom_components/brilliant_mqtt/panel_provisioner.py:1612-1780 | what settling comes to, phase by phase: cleared, committed, cleaned up, handed on, or rolled back with proof; a healthy candidate nobody else touched, whose flow is still wanted, is never rolled back; an unproved rolled-back journal is left as it is |
| Provisioner.PanelProvisioner.ResumeVerification | custom_components/brilliant_mqtt/panel_provisioner.py:1687-1752 | a restarted candidate is promoted when healthy and wanted, and otherwise undone |
| Provisioner.PanelProvisioner.RestartAndWait | custom_components/brilliant_mqtt/panel_provisioner.py:1704-1728 | done, the candidate was started anew and its health observed; the record and the retained entries stay as they were; when nothing fails and nobody else touched the panel, done exactly when it is healthy |
| Provisioner.PanelProvisioner.AdvanceVerified | custom_components/brilliant_mqtt/panel_provisioner.py:1729-1752 | a verified candidate is handed to its pending flow, committed to its matched one, or undone when the flow is gone |
| Provisioner.PanelProvisioner.CleanUnactivated | custom_components/brilliant_mqtt/panel_provisioner.py:1683-1686 | a staged candidate is deleted and its journal cleared with the retained rollbacks, and what was captured of the panel, untouched |
| Provisioner.PanelProvisioner.RecoveryRollback | custom_components/brilliant_mqtt/panel_provisioner.py:1952-2006 | done, the prior state is back and proved; when nothing fails, it succeeds exactly when the candidate is unpinned, and a failure is recorded in both stores |
| Provisioner.PanelProvisioner.RestoreVerified | custom_components/brilliant_mqtt/panel_provisioner.py:2008-2050 | the journal is cleared only with the prior state back, the candidate gone and the restore proved, or the panel proved absent |
| Provisioner.PanelProvisioner.VerifyRestored | custom_components/brilliant_mqtt/panel_provisioner.py:2022-2050 | a restored predecessor is proved by a fresh deployment before anything is cleared |
| Provisioner.PanelProvisioner.RecordVerified | custom_components/brilliant_mqtt/panel_provisioner.py:2043-2048 | durable evidence precedes the deletion of the candidate, which precedes the clearing of the journal |
| Provisioner.PanelProvisioner.OperatorRollback | custom_components/brilliant_mqtt/panel_provisioner.py:2058-2070 | done, the panel is back on the state that transaction had captured; when nothing fails, it succeeds exactly when the transaction may be asked back and nothing blocks that request |
| Provisioner.PanelProvisioner.Finalize | custom_components/brilliant_mqtt/panel_provisioner.py:2072-2083 | done, the entry is forgotten, its capture deleted and nothing else touched; when nothing fails, refused exactly while a restore is requested |
| Provisioner.PanelProvisioner.FinalizeRetained | custom_components/brilliant_mqtt/panel_provisioner.py:2142-2155 | the capture is deleted before its entry is forgotten, on its own panel only |
| Provisioner.PanelProvisioner.RecoverOwnerlessJournal | custom_components/brilliant_mqtt/panel_provisioner.py:1899-1950 | done, an abandoned onboarding of the proved panel is settled as its phase says; without the proof of identity nothing is written |
| Provisioner.PanelProvisioner.FinishVerifiedRestore | custom_components/brilliant_mqtt/panel_provisioner.py:1830-1865 | done, the journal is clear and, unless another writer acted since, an already proved restore is complete with its candidate gone; when nothing fails, it succeeds exactly when the candidate can be pruned |
| Provisioner.PanelProvisioner.FinalizeOwnerlessRestored | custom_components/brilliant_mqtt/panel_provisioner.py:2096-2140 | done, exactly the expected, proved entry is forgotten; without the proof of identity nothing is written |
| Records.OwnJournalCompensates | custom_components/brilliant_mqtt/provisioning_journal.py:984-1010 | an onboarding asked back before it was committed or rolled back is compensated with the password of its own journal, a managed update and anything later with none |
| Records.NoOtherCompensates | custom_components/brilliant_mqtt/provisioning_journal.py:984-1010 | without an active journal of the same transaction a restore is the operator rollback and takes no password over |
| Records.CompensationResumes | custom_components/brilliant_mqtt/provisioning_journal.py:984-1010 | a compensation is journalled as the undone onboarding under the password it was given, and is taken up again under that password whatever became of its retained state |
| Provisioner.BlockedAfter | custom_components/brilliant_mqtt/panel_provisioner.py:1593-1632 | whether recovery gets through can be read beforehand, and settling the intents does not change the answer |
| Provisioner.VerifiedRestoreCanStick | custom_components/brilliant_mqtt/panel_provisioner.py:1983-1998 | from every verified restore, one failed last write leads in three protocol steps to stores that recovery refuses every time; asked back by the operator it is not blocked |
| Provisioner.StuckIsReached | custom_components/brilliant_mqtt/panel_provisioner.py:1983-2000 | those three writes, saving rolled back, marking the rollback failed and recording the failure, are enabled one after the other |
| Provisioner.OrphanCapturePins | custom_components/brilliant_mqtt/panel_provisioner.py:1193-1251 | after an install refused on a panel with a soaking transaction whose candidate is selected, that transaction may still be asked back, and recovery of the request is blocked |
| Operations.StagedPrunable | custom_components/brilliant_mqtt/panel_ops.py:2059-2070 | a staged candidate is never pinned and never selected, so cleaning it up cannot be refused |
| ReleaseIdentity.ChainRises | custom_components/brilliant_mqtt/release_identity.py:117-148 | along admitted changes known ordinals strictly rise, and once one is known no pre-ordinal upgrade is possible again |
| ReleaseIdentity.ChainIs | custom_components/brilliant_mqtt/release_identity.py:117-148 | exactly which histories admission lets happen: code differs at every step, the first step may lead from before 0.11 without an ordinal to 0.11 or later with one, and apart from it every ordinal is known and above all before it |
| ReleaseIdentity.NeverBack | custom_components/brilliant_mqtt/release_identity.py:134-148 | code deployed once never comes back along admitted changes |
| ReleaseWriters.EnrollReads | custom_components/brilliant_mqtt/agent_payload/bundle_manifest.py:456-531 | reading the panel enrols what it saw and changes nothing it will read again |
| ReleaseWriters.AdmissibleIs | custom_components/brilliant_mqtt/panel_ops.py:304-379 | which plans are admitted: without an override exactly those of a readable panel in which each chosen component has no code, the very code of the bundle, code under a lower recorded ordinal, or a first ordinal upgrade the caller allows; with one exactly those it names in full and that was never consumed |
| ReleaseTransaction.ReleaseTransaction.constructor | custom_components/brilliant_mqtt/panel_ops.py:304-419 | a transaction opens with the incumbents, changes and policy of the admission, and consumes its override; which plans may open one is ReleaseWriters.AdmissibleIs |
| ReleaseTransaction.ReleaseTransaction.Guard | custom_components/brilliant_mqtt/panel_ops.py:421-460 | a writer goes on only when every admitted component still reads as admitted |
| ReleaseTransaction.ReleaseTransaction.CompleteIdentity | custom_components/brilliant_mqtt/panel_ops.py:462-473 | computes Complete; when it publishes, and exactly what, is ReleaseLiveness.PublishLands; that no code or unit changes with it is ReleaseHistory.CompleteReads |
| ReleaseTransaction.ReleaseTransaction.DeployPayload | custom_components/brilliant_mqtt/panel_ops.py:2886-2913 | the code swap, version file, pending mark and record in that order, each of them a point of failure; what it keeps is ReleaseBounds.DeployKeeps, what it leaves readable ReleaseHistory.DeployLabels, and when it goes through ReleaseLiveness.DeployGoesThrough |
| ReleaseTransaction.ReleaseTransaction.EnsurePreservedUnit | custom_components/brilliant_mqtt/panel_ops.py:2544-2586 | goes on with the live unit, the release unit, the staged copy or the fallback, in that order; when it goes through and what it lays is ReleaseLiveness.KeptUnitLands, and that the component reads the same afterwards ReleaseHistory.PreserveKept |
| ReleaseTransaction.ReleaseTransaction.EnsureWatchdogUnit | custom_components/brilliant_mqtt/panel_ops.py:3348-3368 | computes EnsureUnit; that the bundled unit is written only over candidate code is ReleaseBounds.EnsureUnitKeeps, and that it then runs ReleaseLiveness.UnitLands |
| ReleaseTransaction.ReleaseTransaction.RefreshCorrelation | custom_components/brilliant_mqtt/panel_ops.py:2507-2521 | computes Refresh; that nothing but the correlation changes with it is ReleaseHistory.RefreshKept |
| ReleaseTransaction.ReleaseTransaction.EnsureConfiguration | custom_components/brilliant_mqtt/panel_ops.py:2472-2504 | computes EnsureConfigs; its bounds are ReleaseBounds.EnsureConfigsKeeps, what it ends on ReleaseLiveness.ConfigsLand |
| ReleaseBounds.PolicyBounds | custom_components/brilliant_mqtt/panel_ops.py:485-522 | for every sequence of writers, completed or cut, under bootstrap or frozen: installed code keeps its digest, no bundled unit over other code, none installed when frozen, and absent components at most once wherever no link hides what is deployed for them, as no complete release link does |
| ReleaseBounds.WriteAllKeeps | custom_components/brilliant_mqtt/panel_ops.py:421-522 | each of those bounds survives every writer, wherever it is cut |
| ReleaseBounds.HiddenInstallsTwice | custom_components/brilliant_mqtt/panel_ops.py:503-511 | wherever a link without the component hides what is deployed for it, which promotion never leaves, two bootstrap deploys install it twice |
| ReleaseLiveness.DeployGoesThrough | custom_components/brilliant_mqtt/panel_ops.py:2886-2913 | a deploy nothing interrupts fails exactly where its code would not show: under a link that names other code, or none, for a component without a fixed unit of its own beside it |
| ReleaseLiveness.PublishLands | custom_components/brilliant_mqtt/panel_ops.py:462-473 | an ordinal is published exactly when the panel can be read and the selected code hashes to the candidate, and then the component reads as before under that ordinal |
| ReleaseLiveness.WatchdogUpdateCompletes | custom_components/brilliant_mqtt/panel_ops.py:3303-3368 | from fixed code, from a release link and from nothing, an admitted update of a watchdog whose deploy shows ends on the code, version, ordinal and unit of the bundle, in its fixed place |
| ReleaseLiveness.BridgeUpdateCompletes | custom_components/brilliant_mqtt/panel_ops.py:2472-2521 | an admitted update of the bridge lands its code, and its configuration goes through if and only if no chosen watchdog was read under the label of the old bridge; then the bridge runs the bundle under its unit and the correlation of the environment, the old one where that names none |
| ReleaseLiveness.KeptUnitLands | custom_components/brilliant_mqtt/panel_ops.py:2544-2586 | unchanged or kept code goes on exactly where it has a live, release or staged unit, or for unchanged fixed code the bundled one, laid in both places with everything else as it was |
| ReleaseHistory.AbsentInstalledOnce | custom_components/brilliant_mqtt/panel_ops.py:1296-1340 | along every history that starts from complete release links, each session that may not change code installs an absent component at most once, and none when frozen |
| ReleaseHistory.SessionTracks | custom_components/brilliant_mqtt/panel_ops.py:304-379 | one steady session leaves a component on its old code or on the bundle, and changes it only when admitted |
| ReleaseHistory.DeployShows | custom_components/brilliant_mqtt/panel_ops.py:3328-3347 | wherever a deploy over fixed code is cut once its swap is done, the panel shows the bundle if and only if the component is not a watchdog whose only fixed unit, beside a link with other code, was the staged copy the swap moves away; that one runs what the link names |
| ReleaseHistory.OrdinalsRise | custom_components/brilliant_mqtt/panel_ops.py:304-379 | at any point of any history, every code change a steady session makes from a known ordinal strictly raises it or consumes an override never consumed before |
| ReleaseHistory.OverridesAreSingleUse | custom_components/brilliant_mqtt/panel_ops.py:330-379 | no override record is consumed by two sessions |
| ReleaseHistory.WipeSelects | custom_components/brilliant_mqtt/agent_payload/bundle_manifest.py:475-487 | whatever happened before, a firmware update that drops the live units leaves a component its code, label and ordinal exactly when there is no link or the copies of its unit agree |
| ReleaseHistory.UnitWriterAgrees | custom_components/brilliant_mqtt/panel_ops.py:2472-2504 | a unit writer that is done leaves the live unit and its staged copy in agreement, whatever they were |
| ReleaseHistory.ActivationAgrees | custom_components/brilliant_mqtt/panel_ops.py:1669-1711 | an activation leaves them in agreement exactly where no staged unit runs fixed code |
| ReleaseHistory.PreOrdinalAtMostOnce | custom_components/brilliant_mqtt/release_identity.py:117-131 | without overrides a component is upgraded from before the first ordinal at most once, plus once per session that left an old label on it anew by one of the listed causes |
| ReleaseHistory.SessionLabels | custom_components/brilliant_mqtt/panel_ops.py:2886-2913 | a session that makes a component legacy, or leaves it legacy under new code, cut its swap beside an old bridge, or met it or the bridge absent, unsteady or misnumbered |
| ReleaseHistory.CutSwapDecides | custom_components/brilliant_mqtt/agent_payload/bundle_manifest.py:488-518 | after a deploy of any component is cut right after its swap, a later bundle with other code is a pre-ordinal upgrade if and only if the bridge is old and that bundle is an ordinal one, and refused otherwise |
| ReleaseHistory.CutSwapBlocks | custom_components/brilliant_mqtt/panel_ops.py:3328-3347 | beside a linked or newer bridge no plan without an override is admitted over the cut code unless it brings that very code |
| ReleaseHistory.TornSwapCountsAgain | custom_components/brilliant_mqtt/panel_ops.py:2886-2913 | beside an old bridge such a session counts, and every different ordinal bundle is a pre-ordinal upgrade afterwards, whether or not this one was |
| ReleaseHistory.TornSwapUpgradesTwice | custom_components/brilliant_mqtt/panel_ops.py:304-379 | beside an old bridge the session after such a cut is admitted and, wherever it is cut itself once its swap is done, upgrades the component a second time |
| ManagerSafety.OneVerdictPerWindow | custom_components/brilliant_mqtt/manager.py:2338-2454 | in every interleaving each recovery window ends exactly once, and no failure is declared while the broker is known to be down |
| ManagerSafety.VerdictsAreCurrent | custom_components/brilliant_mqtt/manager.py:2363-2454 | a verdict is about the window that was current and open when it was issued |
| ManagerSafety.TimersAreHeld | custom_components/brilliant_mqtt/manager.py:1093-1158 | in every reachable state the live timers are exactly those the two handles hold |
| ManagerSafety.QuietAfterShutdown | custom_components/brilliant_mqtt/manager.py:863-887 | after shutdown no timer is live and none can be armed until setup runs again |
| ManagerSafety.TimersStep | custom_components/brilliant_mqtt/manager.py:1093-1229 | every event keeps each live timer held by exactly one handle |
| ManagerSafety.WindowsStep | custom_components/brilliant_mqtt/manager.py:2338-2501 | every event keeps exactly one thing standing for an open window and none for a closed one |
| ManagerBehaviour.EveryMove | custom_components/brilliant_mqtt/manager.py:863-2501 | what every event does to everything an observer sees, condition by condition: the job, the problem and its reason, the grace timer set afresh, stopped or left, the window opened, extended, deferred or ended and how, the judges called, moved on or dropped, and what counts as heard |
| ManagerBehaviour.AutoRepairStarts | custom_components/brilliant_mqtt/manager.py:1191-1229 | an automatic repair starts if and only if the grace timer fires with auto-repair on and no cooldown, on a panel offline or never heard, with the broker not known to be down, no shutdown and no ledger fault |
| ManagerBehaviour.FailureIsDeclared | custom_components/brilliant_mqtt/manager.py:2423-2454 | a failure is declared if and only if the judge of the current window concludes with the broker not known to be down, no shutdown, no ledger fault and the bridge not heard online |
| Manager.PanelManager.OnAvailability | custom_components/brilliant_mqtt/manager.py:1160-1189 | computes HearAvailability; that online ends an open window once, as its success, is ManagerSafety.AvailabilityWindow |
| Manager.PanelManager.OnBrokerReconnected | custom_components/brilliant_mqtt/manager.py:1111-1129 | computes Reconnect; that a deferred verdict gets a fresh window or is dropped, never both, is ManagerSafety.ReconnectWindow |
| Manager.PanelManager.GraceExpired | custom_components/brilliant_mqtt/manager.py:1191-1229 | computes FireGrace; exactly when it starts the automatic repair, raises the problem or sets its timer again is ManagerBehaviour.AutoRepairStarts and EveryMove |
| Manager.PanelManager.Arm | custom_components/brilliant_mqtt/manager.py:2338-2352 | computes ArmRecovery; that a new window ends the old one and starts with one thing standing for it is ManagerSafety.ArmedWindow |
| Manager.PanelManager.RecoveryTimeout | custom_components/brilliant_mqtt/manager.py:2363-2396 | computes FireRecovery; that a fired window is ended, deferred, extended or judged, exactly one of them, is ManagerSafety.RecoveryWindow |
| Manager.PanelManager.JudgeLocked | custom_components/brilliant_mqtt/manager.py:2397-2415 | computes JudgeLock; that a judge of a superseded window says nothing is ManagerSafety.JudgeCloses |
| Manager.PanelManager.JudgeConcluded | custom_components/brilliant_mqtt/manager.py:2423-2454 | computes JudgeConclude; that its failure is the one ending of its window and honest about the broker is ManagerSafety.JudgeWindow |
| Manager.PanelManager.OnMeta | custom_components/brilliant_mqtt/manager.py:2456-2501 | computes HearMeta; that a ledger fault ends the window it finds is ManagerSafety.MetaWindow |
| Manager.PanelManager.RepairConnected | custom_components/brilliant_mqtt/manager.py:1560-1597 | computes ConnectRepair; that the recheck it may arm is a held timer is ManagerSafety.RepairOwned |
| Manager.PanelManager.RepairEnded | custom_components/brilliant_mqtt/manager.py:1673-1704 | computes the end of a repair; that the window it opens supersedes the last one is ManagerSafety.FinishWindow |
| Manager.PanelManager.UpdateEnded | custom_components/brilliant_mqtt/manager.py:1840-1909 | computes the end of an update; that a no-op opens no window and a real one supersedes the last is ManagerSafety.FinishWindow |
| Manager.PanelManager.Stop | custom_components/brilliant_mqtt/manager.py:863-887 | computes ShutDownNow; that no timer is left is ManagerSafety.ShutdownOwned, and that the watched window ends ManagerSafety.ShutdownWindow |
| ConnectRetry.Delay | custom_components/brilliant_mqtt/manager.py:187-193 | the jittered delay stays between half its ceiling and the ceiling, which doubles from 5 s to 30 s at most |
| ConnectRetry.AttemptLocked | custom_components/brilliant_mqtt/manager.py:776-790 | one attempt is made and released under the lock, followed by the update when it connects and by nothing else |
| ConnectRetry.LockedUpdateConnect | custom_components/brilliant_mqtt/manager.py:735-825 | at most five attempts, none later than 120 s after the first acquisition, only the last may have offered the password, the lock never held while sleeping or on return, every step in its order, and a failure only for a final fault, used-up attempts or no time left |
| ConnectRetry.WaitsBetween | custom_components/brilliant_mqtt/manager.py:735-825 | read off the trace, every attempt but the first follows one that failed harmlessly, the lock given back and a wait within the bounds of its number, slept out and ending by the deadline |
| ConnectRetry.BoundsAre | custom_components/brilliant_mqtt/manager.py:187-193 | those bounds are 2.5 to 5 s, 5 to 10 s, 10 to 20 s and from the fourth on 15 to 30 s |
| CommandCache.PurgeIsExact | custom_components/brilliant_mqtt/ha_control.py:608-613 | popping from the front until the first live entry removes exactly the expired ones |
| CommandCache.EvictDrops | custom_components/brilliant_mqtt/ha_control.py:590-598 | eviction keeps exactly the newest entries up to the limit |
| CommandCache.StreamSound | custom_components/brilliant_mqtt/ha_control.py:499-598 | over every command stream the cache is in creation order, without repeated keys, within its bound, and every call is accounted for |
| CommandCache.AtMostOneCall | custom_components/brilliant_mqtt/ha_control.py:487-598 | over any stream a command id triggers a second service call only after 1024 newer results or after the cache time, and then only with a new timestamp or after a wait for the lock beyond 580 s |
| CommandCache.RunsUnlessCached | custom_components/brilliant_mqtt/ha_control.py:506-560 | a valid, fresh command calls the service if and only if no live result is cached for its id |
| CommandCache.ExecutionIs | custom_components/brilliant_mqtt/ha_control.py:499-598 | every accepted command that names an entity is answered, with the result cached for its id in the last ten minutes or with its own, which is then cached as the newest; the service is called in the second case alone, for a valid command issued at most 5 s ahead and 15 s ago; any other command does nothing |
| CommandCache.CachedAnswersRepeat | custom_components/brilliant_mqtt/ha_control.py:506-526 | while its result is cached a command runs nothing and is answered with the same bytes |
| CommandCache.SlowLockRunsTwice | custom_components/brilliant_mqtt/ha_control_protocol.py:250-258 | for every wait beyond that bound, and every starting time, a replay of the same message runs again |
| CommandCache.ReusedIdRunsTwice | custom_components/brilliant_mqtt/ha_control.py:487-598 | for every gap longer than the cache time, an id sent again with a new timestamp runs again without any wait |
| CommandExecutor.CommandExecutor.PurgeResults | custom_components/brilliant_mqtt/ha_control.py:608-613 | the loop computes the purge |
| CommandExecutor.CommandExecutor.ExecuteCommand | custom_components/brilliant_mqtt/ha_control.py:499-598 | computes Execute; what that promises is CommandCache.AtMostOneCall and CommandCache.CachedAnswersRepeat |
| ManifestCommit.OpKeeps | custom_components/brilliant_mqtt/ha_control.py:393-471 | a rebuild failing at any publish keeps the broker consistent; sequences never fall; the revision rises by one exactly with a new manifest |
| ManifestCommit.RebuildCommits | custom_components/brilliant_mqtt/ha_control.py:393-442 | a changed body whose every publish goes through ends as the next revision with exactly its entities and body, on the broker and in the process; with fewer publishes, and for an unchanged body, both keep what they had; exactly the published prefix of the states rises, once per listing |
| ManifestCommit.ChangeRaises | custom_components/brilliant_mqtt/ha_control.py:444-471 | a published change of a listed entity raises its own sequence by one and nothing else; any other change does nothing |
| ManifestCommit.ManifestLast | custom_components/brilliant_mqtt/ha_control.py:393-459 | throughout a process the retained manifest is the committed one and each entity in it has a retained state of its committed sequence |
| ManifestCommit.RevisionsRise | custom_components/brilliant_mqtt/ha_control.py:393-459 | between any two operations revisions rise by exactly one per new manifest |
| ManifestCommit.ManifestPublisher.RebuildManifest | custom_components/brilliant_mqtt/ha_control.py:393-442 | computes a rebuild that fails at any publish; what it commits and stages is ManifestCommit.RebuildCommits, that the broker stays consistent ManifestCommit.OpKeeps |
| ManifestCommit.ManifestPublisher.StageStates | custom_components/brilliant_mqtt/ha_control.py:414-418 | publishes in order up to the first failure |
| CommandFence.AcceptIsSafe | custom_components/brilliant_mqtt/ha_control.py:175-345 | accepting commands implies started, a committed manifest and no hard fence, in every interleaving |
| CommandFence.OnlyNewestLifts | custom_components/brilliant_mqtt/ha_control.py:198-280 | a hard fence is lifted only by the newest detach or stop, as it ends |
| CommandFence.FencedCommandsNeverRun | custom_components/brilliant_mqtt/ha_control.py:487-526 | a command received before a detach or stop began and validated after never reaches a service call |
| CommandFence.OnlyCurrentCommandsRun | custom_components/brilliant_mqtt/ha_control.py:499-526 | what runs was received under the generation it is validated under |
| CommandFence.StepKeeps | custom_components/brilliant_mqtt/ha_control.py:175-526 | every stretch of every lifecycle task keeps the gate closed unless it may be open |
| GateBehaviour.EveryMove | custom_components/brilliant_mqtt/ha_control.py:175-345 | what every stretch does to the gate, condition by condition: accepting, the hard fence, the generation, started, committed, rebuilding, the lock and its tasks, the commands that wait and those that run |
| GateBehaviour.AttachOpens | custom_components/brilliant_mqtt/ha_control.py:175-345 | attaching the first enabled entry, undisturbed, opens the gate, and a command received after that runs |
| GateBehaviour.DetachReopens | custom_components/brilliant_mqtt/ha_control.py:198-227 | detaching one of several entries, undisturbed, closes the gate and opens it again; a command received in between never runs, one received after it does |
| ControlPlane.HaControlPlane.BeginTask | custom_components/brilliant_mqtt/ha_control.py:198-280 | computes Begin; that the gate is closed and only a detach or stop draws a new generation is GateBehaviour.BeginMoves |
| ControlPlane.HaControlPlane.LeaveLock | custom_components/brilliant_mqtt/ha_control.py:175-280 | computes Leave; exactly what it reopens and which fence it lifts is GateBehaviour.LeaveIs, that it is safe CommandFence.LeaveKeeps |
| ControlPlane.HaControlPlane.EndRebuilding | custom_components/brilliant_mqtt/ha_control.py:393-442 | computes EndRebuild; exactly when it reopens is GateBehaviour.RebuiltMoves, that it does so only under a committed manifest CommandFence.EndKeeps |
| ControlPlane.HaControlPlane.ValidateCommand | custom_components/brilliant_mqtt/ha_control.py:499-526 | a command runs exactly past every fence |
| PanelHealth.EvidenceIsTheTrace | custom_components/brilliant_mqtt/panel_health.py:339-355 | the incremental session holds evidence exactly when the trace does: a fresh online not reset since, current metadata of the expected version and deployment, then a state and a discovery after it |
| PanelHealth.FoldTracks | custom_components/brilliant_mqtt/panel_health.py:358-510 | after every message the session agrees with the trace about the open session |
| PanelHealth.TopicsAreHeard | custom_components/brilliant_mqtt/panel_health.py:418-475 | the topics held are exactly those of good states and right announcements heard in this session while the panel said it runs the candidate |
| PanelHealth.ErrorIsTheTrace | custom_components/brilliant_mqtt/panel_health.py:358-512 | the fault held is exactly the first one since the session began or was last cleared: unreadable availability, metadata unreadable or of another version, an unreadable state or a wrong announcement of a panel on the candidate |
| PanelHealth.VerdictIsTheTrace | custom_components/brilliant_mqtt/panel_health.py:328-355 | the wait ends well if and only if the trace holds evidence and no such fault, and ends with a fault if and only if that is the first one |
| PanelHealth.PanelHealthObserver.OnMetadata | custom_components/brilliant_mqtt/panel_health.py:382-416 | computes HandleMetadata; that metadata of another deployment ends the session is PanelHealth.ResetStep |
| PanelHealth.PanelHealthObserver.Poll | custom_components/brilliant_mqtt/panel_health.py:328-355 | a fault first, evidence only without one, with a topic of each kind that was heard; waiting otherwise |
| PanelHealth.PanelHealthObserver.OnMessage | custom_components/brilliant_mqtt/panel_health.py:358-510 | computes Handle; that the fold of it agrees with the trace is PanelHealth.FoldTracks |
| EnvFile.TwoPassesAreOne | custom_components/brilliant_mqtt/panel_ops.py:2136-2155 | replacing backslashes and then quotes is escaping each character once |
| EnvFile.UnescapeInverts | custom_components/brilliant_mqtt/panel_ops.py:2316-2338 | the unescape scanner undoes that escaping |
| EnvFile.QuoteRoundTrip | custom_components/brilliant_mqtt/panel_ops.py:2136-2166 | exactly the accepted values can be quoted, and each reads back unchanged |
| EnvFile.EnvUnquote | custom_components/brilliant_mqtt/panel_ops.py:2316-2338 | the index loop computes the unquoting |
| EnvFile.ParseEnv | custom_components/brilliant_mqtt/panel_ops.py:2340-2354 | the line loop computes the parse |
| EnvFile.EnvRoundTrip | custom_components/brilliant_mqtt/panel_ops.py:2251-2354 | reading a rendered file gives exactly the intended keys and the original values, for all accepted settings; refused settings render nothing |
| Handoff.OwnedSubentry | custom_components/brilliant_mqtt/fleet_manager.py:366-410 | the one-pass loop finds the owner, none, or refuses anything ambiguous |
| Handoff.OwnedMeaning | custom_components/brilliant_mqtt/fleet_manager.py:366-410 | an owner is reported if and only if one subentry has the journalled identity, no other is marked, and it is marked or the scene owner is a real panel |
| Handoff.NotOwnedMeaning | custom_components/brilliant_mqtt/fleet_manager.py:366-410 | nobody owns the panel if and only if no subentry has its identity and none carries a marker; whatever is neither that nor an owner is refused |
| Handoff.HandoffIsSafe | custom_components/brilliant_mqtt/fleet_manager.py:1191-1406 | in every crash state of the handoff the entry names exactly the journal panel, so no recovery rolls it back; once the journal is committed the stored entry no longer carries the marker |
| Handoff.StepKeeps | custom_components/brilliant_mqtt/fleet_manager.py:1085-1406 | every step of the handoff keeps that |
| Handoff.LookupIsPending | custom_components/brilliant_mqtt/fleet_manager.py:545-583 | while it holds the lookup says pending |
| Handoff.HandoffCompletes | custom_components/brilliant_mqtt/fleet_manager.py:1085-1406 | preparing starts the handoff exactly where the scene role can be settled; undisturbed it then ends with the journal cleared and the entry stored without the marker, the scene role with the panel or the one that had it, and everything else as it was |
| Handoff.CommittedRestart | custom_components/brilliant_mqtt/fleet_manager.py:1267-1292 | after a crash between the commit and the clearing, the restart clears the journal if and only if the onboarded panel has the scene role |
| Handoff.FleetHandoff.PrepareProvisioning | custom_components/brilliant_mqtt/fleet_manager.py:1085-1129 | the handoff becomes pending only with a real scene owner in the entry, and when the entry had to be changed for it, only once that is on disk |
| Handoff.FleetHandoff.AwaitPersisted | custom_components/brilliant_mqtt/fleet_manager.py:1340-1386 | only an entry stored without its marker lets the commit go on |

## Left out

- Baseline capture, verification, restore and deletion (`bundle_manifest`): opaque steps on one captured value. A cut
  restore of the trees is modelled (any trees may result), a half-written capture or a half-deleted one is not.
  Digests are abstract, and the identity reader returns what was recorded for the code it hashes.
- A baseline archive also carries the environment and unit files; the model's restore step brings back the code trees,
  unit copies and identity records, and the files come back by the explicit steps after it.
- Shell text, SSH, SFTP, tar building and systemd internals: each command is its effect on an abstract panel. File
  content is a list of lines; removing several paths, or guarding and deleting a candidate, is one step; a `current`
  that is not a link is not modelled.
- `_swap_command`'s own recoverability: a code swap is one step that may be cut before or after. The voice, hue-ca and
  mirror recipes are not modelled.
- JSON, base64 and Home Assistant storage encoding, field validators, redaction and `repr`: a store is a register of
  records.
- The fleet profile of a record, progress reports, repair issues and the limit of 256 retained records. Random
  identifiers are fresh.
- asyncio cancellation draining (`_settle` and its siblings): a settled operation completes, fails or is cut by a
  crash.
- A transaction id taken over from an operator's release override: the model always draws a fresh one.
- Records from before baselines existed: the journal's branches for a snapshot without a baseline are modelled, the
  provisioner's are not, since every record it creates has one.
- What other writers do is any list of deployment steps that selects no other release; an uninstall is refused while a
  baseline is retained (`panel_ops.py:2965-2975`) and is not modelled.
- Safety.CrashAtomicity: while the committed candidate is in place, whether its bridge runs at that very moment is
  left open, since a recovery restarts it and may be cut between stop and start.
- Operations.RestartRestored: the temporary it writes carries a fresh identifier, as in the source, so one left by an
  interruption is never removed; no theorem says that it is.
- Provisioner.PanelProvisioner.ManagedUpdate: the caller's writes are any list of deployment steps; which ones the
  manager chooses is modelled by the release writers instead.
- ReleaseHistory.OrdinalsRise: an activation appears in a history only when it completed, since the provisioning
  transaction rolls back every other; activations do not consult the code policy, as in the source.
- A writer called outside any transaction admits itself afresh with the default policy (`panel_ops.py:427-434`): in a
  history that is a session of this one call, so it has no case of its own.
- The audit record of an automatic admission, and the file that lists consumed overrides beyond its contents; an
  installed version that is no version string at all, which the reader refuses.
- ManagerSafety.OneVerdictPerWindow: an online message is the one success; other terminal events of a repair that
  never opened a window are not counted.
- Provisioner.OrphanCapturePins: whether an entry owns the panel is one of the outside answers of an install, and the
  credentials of a rollback are given; the two steps are not put into one run.
- Update and repair bodies between their awaits (what they write to the panel), component installs, reboot,
  diagnostics and uninstall.
- ConnectRetry.LockedUpdateConnect: how an error is classified is an input; the lock's fairness towards other panels
  is not modelled.
- CommandCache.AtMostOneCall: the monotonic and the wall clock advance together.
- The service call itself, the scene and mode channels, and the registry events that trigger a rebuild.
- `PanelHealthObserver` subscription and deadline, and which of several topics its evidence names; JSON depth limits
  and topic validators are inputs.
- Handoff.HandoffIsSafe: other edits of the entry are any that keep the onboarded subentry, add no marker and leave
  the scene role on a real panel. Removing the entry, which also clears a committed journal
  (`fleet_manager.py:790-812`), is not modelled.
- Broker validation, preflight wire messages, config flows, entities, platforms and diagnostics.
