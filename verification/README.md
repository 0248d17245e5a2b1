# Verification of the rollout gate, the vault exporter and the smaller cores

This project models the parts of the repository whose correctness is hardest to see from one function, and
proves what they promise. `dafny verify dfyconfig.toml` checks all of it. Each file is one module of the
same name.

## What is modelled

**HMAC key rotation** (`Hmac*.dfy`). The control-plane gate reads and conditionally writes records of one
durable table: a record per signing domain, a ledger per epoch, a cleanup per epoch and domain, restart
records, histories and retirements, deployment intents. `HmacTable` gives every action as what the gate
checks on the records it read, what the table requires when the transaction arrives, and what it then becomes.
`HmacRun` lets any number of gates and the runtime interleave: an action names the earlier states of the
run at which its records were read and commits against the latest one. Over all such runs:

- a record whose revision is unchanged is unchanged (except for the clock part of a domain record), so an
  action that commits could have read everything at the moment it committed (`HmacAtomic`);
- issuers and retired provenances stay apart, authorise-then-complete exchanges exactly the planned issuers
  and authorise-then-abort restores them (`HmacIssuers`, `HmacCleanup`);
- both domains sit in one epoch, ledgers advance one stage at a time, the epochs form one chain of completed
  and recorded rotations, a retired generation is never primary again, retired keys are expired keys, and an
  aborted cleanup ends the chain (`HmacEpochs`, `HmacWindow`, `HmacHandover`);
- the stages of every restart record are in order, and the MCP cutover is reached only through a restart
  completed after the worker was verified (`HmacFresh`);
- while a cleanup is open its restart record decides which worker runs: an abort commits exactly when that
  record shows the worker of before, a rebind keeps what it found, and a candidate whose restart is complete
  blocks the abort, however often the cleanup is bound anew, until its record is moved again (`HmacWorker`);
- the two domains sign with versions of two different secrets in every state, a cleanup's proposal takes the
  expired key and nothing else, it ends on a restart completed after it was authorised, and ledgers move on
  only within the window (`HmacEvidence`);
- at most one cleanup is authorised exactly when every authorisation also passes the guard at the moment it
  commits (`HmacGuard`); where two are authorised at once, the first to complete leaves the other unable to
  complete or abort, and the epoch is never left (`HmacDeadlock`);
- such runs exist: `HmacReach`, `HmacRounds` and `HmacClosing` build a round, an epoch opened, rolled out and
  cleaned up, on top of any run whose last epoch is closed, and `HmacWitness` strings rounds together, aborts a
  cleanup, and runs two preparations into the race;
- `HmacGate` is the gate itself, a class whose methods read, check, commit and retry while others commit in
  between; each method is proved to contribute exactly its specified action, at most once. `HmacClock` is its
  trusted clock and paged listing. `HmacKeyring` is the transition contract both the gate and the preflight
  call.

**Preflight** (`Preflight*.dfy`, `Decimals`). A manifest passes exactly when it is sound; a rendered task
definition passes exactly when its signing names are the expected ones and each says what the manifest makes
of it; so any two accepted definitions agree, and with the worker's file they decode to one triple per domain.

**Vault export** (`Vault*.dfy`). Planning collision-free notes, writing and pruning them, the manifest, and
the application builder's refusal of anything but the last complete export. `VaultShelf` decides where a
document goes, `VaultPlan` is the planner, which also fixes what every note is called and whom it links to,
`VaultFiles` the directory, `VaultPublish` what an export leaves.

**Application builder**: the graph view's quadtree as a value (`Quadtree`), as cells changed in place
(`QuadtreeCells`), what it gives when far cells are taken as a whole (`QuadtreeCover`) and the momentum it
keeps (`QuadtreeMomentum`); the feedback count of merged notes (`FeedbackMerge`). **Ratings** (`Ratings`), **base environment**
(`BaseEnv`), **chunking** (`Chunks`) and **migrations** (`Migrations`). `Optional` and `Text` hold what several
of them share.

Where the source updates state in place the model is a class or a method with loops, proved against a
specification whose properties are lemmas. Digests are taken to be injective: what is digested stands for
its digest.

## What the code does differently from what is said about it

- scripts/hmac_rollout_gate.py:3159 says that concurrent runtime writes only raise the clock. The runtime
  store (src/teamagent/hmac_durable_state.py:686-765) also retires the previous generation once its deadline
  is seen, without touching `revision`. `HmacAtomic.DomainNoAba` therefore allows that change under an equal
  revision, and nothing at all under equal revision and clock revision.
- An aborted cleanup cannot be prepared again: its record stays and the next authorisation demands its
  absence, so the domain never leaves the epoch (`HmacEpochs.AbortEndsTheChain`). A run of gate actions gets
  there (`HmacWitness.AbortReached`).
- scripts/hmac_rollout_gate.py:3389-3390 refuses a preparation while another cleanup is active, but evaluates
  this before its transaction and outside it. Two gates can pass it together (`HmacWitness.GuardRace`), which
  happens exactly when a guard no longer holds at its commit (`HmacGuard.OneCleanupIff`) and costs the epoch
  (`HmacDeadlock.RaceEndsTheChain`).
- An abort asks for the restart record of the worker its control file names. A control file that names another
  worker than the one restarted under the cleanup reads another record, so `HmacWorker.CandidateBlocksAbort`
  speaks of aborts and rebinds that name that worker.
- scripts/demo_pdf_vectorize.py:71-91 ends whenever the overlap is less than the size and at most half the
  size plus one; the second condition alone is not enough for sizes 1 and 2 (`Chunks.AdvancesIff`).
- A complete export is not always accepted by the builder: without pruning an old spelling stays on record
  beside the new one (`VaultPublish.RenamedInCase`), and a note can land in a file the builder does not list
  (`VaultPublish.UpperCaseSuffix`). `VaultPublish.PublishableIff` gives the exact condition on the vault before
  the export.
- One note per identity holds for the identity's own documents; a document without an identity can make two
  identities share a note through its URI (`VaultShelf.UriMergesIdentities`). That happens in a run exactly
  when the branch for it was taken (`VaultShelf.SharedIff`).

## Model

| member | source | states |
|---|---|---|
| HmacKeyring.TransitionContract | src/teamagent/hmac_keyring.py:425-542 | A transition passes exactly when both configurations are well formed and the step is one of four: nothing, a rotation started from the deployed primary, the same rotation restated, an expired one removed |
| HmacKeyring.OldPrimaryVerifiesUntilDeadline | docs/security/hmac_rotation_contract.md:38-46 | Through any chain of accepted transitions a key once primary stays verifiable unless its own deadline was reached at a step in between |
| HmacRun.RunPrefix | scripts/hmac_rollout_gate.py:3139-3359 | Every prefix of a run is a run |
| HmacRun.RunExtends | scripts/hmac_rollout_gate.py:3139-3359 | A run extends by any action enabled in its last state |
| HmacRunGood.RunGood | scripts/hmac_rollout_gate.py:1577-1818 | Every run of interleaved actions keeps the table invariant: one epoch for both domains, their stage fixed by the ledger, a chain of complete and recorded earlier epochs, bound candidates under one plan |
| HmacRunGood.StatesEvolve | scripts/hmac_rollout_gate.py:2896-3115 | Between any two states of a run records only evolve: revisions grow with every change, bound digests and ARNs stay, final stages absorb |
| HmacAtomic.DomainNoAba | scripts/hmac_rollout_gate.py:1444-1490 | Two states with the same domain revision differ at most in the clock part and the retirement it causes; with the same clock revision too, not at all |
| HmacAtomic.RecordNoAba | scripts/hmac_rollout_gate.py:5141-5210 | Two states with the same revision of a ledger, cleanup or restart record hold the same record |
| HmacAtomic.AtomicRefinement | scripts/hmac_rollout_gate.py:3139-3359 | An action that commits after reading at any earlier states would have committed to the same table had it read every record it tests at the moment it committed; an initialisation may copy older clock readings |
| HmacIssuers.IssuerSafety | scripts/hmac_rollout_gate.py:1949-2025 | When provenances bind their epoch, every domain's issuers and retired provenances stay disjoint in every state of every run |
| HmacCleanup.AuthorizedOnce | scripts/hmac_rollout_gate.py:3282-3289 | No epoch and domain is ever authorised for cleanup twice |
| HmacCleanup.AuthorizeThenComplete | scripts/hmac_rollout_gate.py:5418-5489 | However much happens in between, authorise then complete leaves exactly the new issuers, retires exactly the old ones and drops the window |
| HmacCleanup.AuthorizeThenAbort | scripts/hmac_rollout_gate.py:2896-2994 | Authorise then abort restores the issuers exactly and does not take the expired generation out of the retired ones |
| HmacCleanup.RetirementNamesWindow | scripts/hmac_rollout_gate.py:5418-5489 | The retirement written at completion names the window that was open when the cleanup was authorised |
| HmacCleanup.CleanupThroughRebinds | scripts/hmac_rollout_gate.py:2996-3115 | Through any number of rebinds the artifacts and bound ARNs of a cleanup stay, and plan and attempt are bound together or not at all |
| HmacEpochs.StagesInOrder | scripts/hmac_rollout_gate.py:129-135 | In every step of a run a ledger stays, advances by one stage or is opened at the first stage |
| HmacEpochs.EpochWalk | scripts/hmac_rollout_gate.py:1577-1818 | Following the previous epochs from a domain's own visits every epoch once, newest first; all but the current are complete and have a history for both domains |
| HmacEpochs.RetiredNeverPrimary | scripts/hmac_rollout_gate.py:1638-1768 | A generation once retired stays retired and is never that domain's primary again |
| HmacEpochs.RetiredMeansExpired | src/teamagent/hmac_durable_state.py:767-808 | A previous generation marked retired is in the retired set, its deadline is T0 plus overlap plus lifetime, and the high-water mark has reached it |
| HmacEpochs.AbortEndsTheChain | scripts/hmac_rollout_gate.py:2896-2994 | After an abort the domain stays in its epoch in every later state and is never retired there |
| HmacEpochs.NotRetiredStaysCurrent | scripts/hmac_rollout_gate.py:1577-1818 | A domain leaves an epoch only after its cleanup there is complete |
| HmacEpochs.NoWindowNoCleanup | scripts/hmac_rollout_gate.py:2094-2167 | An epoch in which the domain has no previous generation is never authorised for cleanup there |
| HmacEpochs.RetiredAfterLastToken | scripts/hmac_rollout_gate.py:4103-4118 | When a cleanup completes, the trusted time is past the cutover time plus the longest token lifetime |
| HmacWindow.StatesMove | scripts/hmac_rollout_gate.py:3168-3334 | High-water marks and retired sets never shrink, and a window once retired stays so within its epoch |
| HmacWindow.KnownEpochs | scripts/hmac_rollout_gate.py:1832-1847 | Every domain's epoch has a ledger |
| HmacHandover.HandoverInvariant | scripts/hmac_rollout_gate.py:1638-1768 | In every state each closed epoch's history and retirement fit those of its neighbours |
| HmacHandover.KeyContinuity | scripts/hmac_rollout_gate.py:1638-1768 | A closed epoch retired exactly the generation that was primary when the one before it closed, and no generation was primary at the close of two epochs |
| HmacFresh.RestartMade | scripts/hmac_rollout_gate.py:4561-4861 | Every restart record was requested and then completed or reconciled by actions of the run, with a completion later than its request |
| HmacFresh.RestartStep | scripts/hmac_rollout_gate.py:4561-4861 | In one step a restart record is left alone or moved by an action on it: requested unless one is pending, completed from requested, reconciled from requested or completed; the revision grows by one |
| HmacFresh.RestartOrder | scripts/hmac_rollout_gate.py:4561-4861 | Over a whole run the stages written to a restart record are in that order, the record shows the last of them, and its revision counts them |
| HmacFresh.CutoverFresh | scripts/hmac_rollout_gate.py:5242-5271 | The move to the MCP stage rests on a restart of this epoch completed after the worker was verified |
| HmacFresh.McpFreshness | scripts/hmac_rollout_gate.py:4863-4948 | A ledger at or past the MCP stage was brought there by such a move |
| HmacWorker.RestartTells | scripts/hmac_rollout_gate.py:4692-4760 | Every restart record agrees with its name, a completed one says when, and a reconciled one was reconciled by the plan and the attempt it was made with |
| HmacWorker.AbortNeedsBaseline | scripts/hmac_rollout_gate.py:2896-2994 | When an abort commits, the restart record is absent, or reconciled if it was made in cleanup mode with the bound plan and attempt, or else the one the last reconciliation found to be the baseline or one completed in another mode; what it found is put on record, and the deployment intent is aborted |
| HmacWorker.RebindRecords | scripts/hmac_rollout_gate.py:2996-3115 | A rebind puts the candidate on record exactly when the restart made under the cleanup is complete or the last reconciliation had found the candidate, else the baseline; all plans and attempts are unbound, the cleanup has the fresh plan and intent, and the old intent is superseded |
| HmacWorker.AbortIff | scripts/hmac_rollout_gate.py:2873-2994 | An abort on records just read commits if and only if the cleanup is authorised, the restart record shows the baseline, the intent is open under the cleanup's plan, and both domains have the issuers awaited |
| HmacWorker.CandidateBlocksAbort | scripts/hmac_rollout_gate.py:2649-2815 | Once a candidate's restart under a cleanup is complete no abort of it commits before another action on that restart record, through any number of rebinds and bindings, when the control files name that worker |
| HmacEvidence.KeysStaySeparated | scripts/hmac_rollout_gate.py:1349-1394 | In every state of every run the two domains' primaries are versions of two different secrets, none of them a Slack secret |
| HmacEvidence.AuthorizeProposes | scripts/hmac_rollout_gate.py:2094-2167 | An authorised cleanup's proposal keeps the target's primary without its window, which had run out, and the other domain's configuration as it is |
| HmacEvidence.CompletionFresh | scripts/hmac_rollout_gate.py:5328-5416 | Behind every completed cleanup there are a worker restart requested and completed before, later than the authorisation by the clock, and three different candidate task definitions bound |
| HmacEvidence.EveryRestartRests | scripts/hmac_rollout_gate.py:4580-4610 | A restart in cleanup mode had read one authorised cleanup, a candidate's none, and every one the bound plan and attempt it names |
| HmacEvidence.MovesInTime | scripts/hmac_rollout_gate.py:4103-4118 | A ledger moves only while both domains hold what the manifest proposes and, for the domains the move concerns, within fifteen minutes of T0, said of the records at the commit |
| HmacEvidence.MovesOpen | scripts/hmac_rollout_gate.py:5256-5326 | Before the MCP cutover a move admits no issuer; the cutover admits exactly the MCP service and the worker with their rollbacks, the last move adds the morning service for mail actions |
| HmacEvidence.EpochsStart | scripts/hmac_rollout_gate.py:1638-1768 | Every epoch starts with the proposed key, no issuer and a deadline of fifteen minutes and the longest lifetime after T0, on a domain whose window was retired, and keeps what was retired |
| HmacGuard.OneAfterAuthorize | scripts/hmac_rollout_gate.py:3389-3390 | One authorisation keeps at most one cleanup exactly when no other is authorised at that moment |
| HmacGuard.OneCleanupIff | scripts/hmac_rollout_gate.py:3362-3520 | Over a run there is never more than one authorised cleanup if and only if every authorisation also passes the guard on the table it commits to |
| HmacDeadlock.EntangledAlways | scripts/hmac_rollout_gate.py:3262-3334 | Until the other domain's is authorised an active cleanup finds the issuers it waits for; two active ones each displace issuers the other waits for |
| HmacDeadlock.CompletionBlocksOther | scripts/hmac_rollout_gate.py:5418-5489 | With checked control files: after one of two active cleanups completes, no later action completes or aborts the other |
| HmacDeadlock.CleanupFinishedBy | scripts/hmac_rollout_gate.py:5328-5517 | Behind every finished cleanup there are the action that authorised it and a later one that completed it |
| HmacDeadlock.RaceEndsTheChain | scripts/hmac_rollout_gate.py:3362-3520 | With checked control files: once both cleanups of an epoch are active, both domains are in that epoch in every later state of the run |
| HmacWitness.GuardRace | scripts/hmac_rollout_gate.py:3362-3520 | A run with checked control files after which both domains' cleanups are active |
| HmacWitness.EpochsReachable | scripts/hmac_rollout_gate.py:1577-1818 | For every number of epochs up to two thousand a run opens them one after the other and retires the window of each in both domains |
| HmacWitness.FinishedReached | scripts/hmac_rollout_gate.py:5328-5517 | In such a run every epoch and domain has its authorisation and its completion |
| HmacWitness.ContinuityReached | scripts/hmac_rollout_gate.py:1638-1768 | From three epochs on such a run hands the closing primary of each epoch to the retirement of the next |
| HmacWitness.AbortReached | scripts/hmac_rollout_gate.py:2896-2994 | A run aborts a cleanup, and no authorisation for that epoch and domain passes its conditions afterwards |
| HmacGate.LiveRolloutGate.constructor | scripts/hmac_rollout_gate.py:887-904 | A gate starts on an empty table with an empty run |
| HmacGate.LiveRolloutGate.Transact | scripts/hmac_rollout_gate.py:3346-3359 | A transaction either extends the run by its action or leaves everything as it was |
| HmacGate.LiveRolloutGate.AuthorizeAttempt | scripts/hmac_rollout_gate.py:3156-3359 | One attempt reads, checks and commits, and reports retry only when a domain record moved in between |
| HmacGate.LiveRolloutGate.Retry | scripts/hmac_rollout_gate.py:3156-3359 | The attempts together commit the authorisation at most once |
| HmacGate.LiveRolloutGate.AuthorizeCleanupCas | scripts/hmac_rollout_gate.py:3139-3359 | Twelve attempts at most; success means exactly one committed authorisation |
| HmacGate.LiveRolloutGate.PrepareCleanup | scripts/hmac_rollout_gate.py:3362-3520 | Guard and evidence first, then the conditional authorisation |
| HmacGate.LiveRolloutGate.CompletedRestartMode | scripts/hmac_rollout_gate.py:4863-4948 | The mode found is one whose restart completed after the given time |
| HmacGate.LiveRolloutGate.TransitionLedger | scripts/hmac_rollout_gate.py:5141-5210 | A commit is the requested move of one stage; with no other actor in between it is refused only when the move could not commit |
| HmacGate.LiveRolloutGate.McpStableAndOldDrained | scripts/hmac_rollout_gate.py:5242-5271 | The cutover is one transition with the restart found as its proof |
| HmacGate.LiveRolloutGate.CompleteCleanup | scripts/hmac_rollout_gate.py:5328-5517 | A commit writes the completion; with no other actor in between it is refused only when the completion could not commit |
| HmacGate.LiveRolloutGate.AbortCleanup | scripts/hmac_rollout_gate.py:2896-2994 | A commit restores the issuers and finds a restart record that shows the baseline worker; with no other actor in between it is refused only when the records do not allow the abort |
| HmacClock.ReadingIff | scripts/hmac_rollout_gate.py:909-930 | A time is read exactly when something was observed, all dates agree within ten seconds and the manifest's projected time is within a minute; it is the latest the observations give |
| HmacClock.NeverBack | scripts/hmac_rollout_gate.py:909-930 | More observations and a later local clock never turn the reading back |
| HmacClock.NeverAhead | scripts/hmac_rollout_gate.py:909-930 | The reading is never ahead of the server clock and behind it by less than the longest response time plus two seconds |
| HmacClock.ListedTaskArns | scripts/hmac_rollout_gate.py:1097-1137 | A listing is returned exactly when its pages end without a repeated task or token within the limit, and it is all of them in order |
| Preflight.PlanAcceptedIff | scripts/preflight_hmac_rotation.py:130-224 | A manifest is accepted if and only if each purpose takes an allowed step, the secrets are separate, the legacy worker key fits, and every task carries exactly the proposed configurations |
| Preflight.ValidateManifest | scripts/preflight_hmac_rotation.py:130-224 | The verdict, with the first refusal in the order of the checks |
| PreflightTasks.NamedValuesIff | scripts/preflight_hmac_rotation.py:227-239 | Entries give values exactly when all are well formed and no name repeats |
| PreflightTasks.NamedValuesHold | scripts/preflight_hmac_rotation.py:227-239 | The names are those of the entries, each with its entry's value |
| PreflightTasks.CollectNamedValues | scripts/preflight_hmac_rotation.py:227-239 | The loop computes those values |
| PreflightTasks.NamesDiffer | scripts/preflight_hmac_rotation.py:48-69 | No two fields of the two domains share a name |
| PreflightTasks.MatchesIff | scripts/preflight_hmac_rotation.py:246-379 | For a sound manifest a definition matches if and only if its signing names are exactly the expected ones and every one shows what the manifest makes of it |
| PreflightParity.AcceptedDefinitionsAgree | scripts/preflight_hmac_rotation.py:382-455 | Two definitions accepted for one task agree on every signing name: same names, same references, same values up to the lifetime and leading zeros in T0 |
| PreflightParity.SelectionAcceptedIff | scripts/preflight_hmac_rotation.py:382-455 | A selection passes exactly when the manifest does and every definition does |
| PreflightParity.ValidateRenderedTasks | scripts/preflight_hmac_rotation.py:382-455 | The verdict on the manifest, else the first refusal among the definitions |
| PreflightWorker.WorkerEnvReadsBack | scripts/preflight_hmac_rotation.py:473-490 | A file that exports every expected name once, in any order, is read back as what was exported |
| PreflightWorker.ParseWorkerEnv | scripts/preflight_hmac_rotation.py:473-490 | The loop over lines reads exactly the expected names, each once |
| PreflightWorker.ValidateWorkerEnv | scripts/preflight_hmac_rotation.py:513-622 | The verdict on the worker's file |
| PreflightWorker.OneTriplePerDomain | scripts/preflight_hmac_rotation.py:513-622 | An accepted definition and an accepted worker file decode to one triple per domain, spell T0 alike up to leading zeros and pin the same secret version |
| PreflightWorker.OneLegacyWorker | scripts/preflight_hmac_rotation.py:598-622 | With a legacy worker an accepted definition and an accepted worker file name its one generation and pin one version; without, neither mentions it |
| PreflightWorker.AcceptedWorker | scripts/preflight_hmac_rotation.py:519-545 | An accepted worker requires the durable state, names provenance and artifact, and signs with two secrets, none the database's |
| PreflightWorker.AllTasksAgree | scripts/preflight_hmac_rotation.py:382-455 | Accepted definitions of any two tasks declare the same configuration for a domain they share |
| Decimals.SameNumber | scripts/preflight_hmac_rotation.py:350-362 | Two numerals denote one number if and only if they differ in leading zeros only |
| Decimals.NumberOfNumeral | scripts/preflight_hmac_rotation.py:583-588 | Printing a number and reading it gives it back |
| VaultPlan.Pigeonhole | scripts/export_vault.py:492-502 | Among one more candidates than claimed keys one is free |
| VaultPlan.FreeName | scripts/export_vault.py:492-502 | The search ends at the first candidate whose portable key is free |
| VaultPlan.PlainKeysApart | scripts/export_vault.py:191-193 | Numbered candidates have different names, so the assumption on portable keys holds for keys that fold nothing |
| VaultShelf.IdentityIsNote | scripts/export_vault.py:525-600 | Documents of one identity share a note, and share one with another identity only if a document without an identity has it too |
| VaultShelf.IdentityIffNote | scripts/export_vault.py:525-600 | When all documents carry an identity, sharing a note is sharing the identity |
| VaultShelf.UriMergesIdentities | scripts/export_vault.py:553-561 | A document without an identity, then two others under its URI: two identities in one note |
| VaultShelf.MergeStep | scripts/export_vault.py:546-561 | Placing a document makes two identities share a note if and only if it brings a new identity to a note found by its URI that was made for no identity and has got one since |
| VaultShelf.SharedIff | scripts/export_vault.py:525-600 | Over a whole run two identities share a note if and only if some document, when it was placed, did that |
| VaultShelf.ConflictMeans | scripts/export_vault.py:535-560 | Another owner of the identity always conflicts, and every conflict has a placed document of another owner under the identity or the URI |
| VaultShelf.RefusedIff | scripts/export_vault.py:535-560 | When all documents carry an identity, one is refused if and only if a placed one of its identity has another owner |
| VaultPlan.VaultPlanner.Claim | scripts/export_vault.py:492-502 | A new path under the first free portable key |
| VaultPlan.VaultPlanner.AddDocument | scripts/export_vault.py:521-612 | A reused note keeps its links, a new one links back to its cards, and the refusals are exactly the conflicts and the missing external ids |
| VaultPlan.VaultPlanner.TieCampaigns | scripts/export_vault.py:622-685 | Every campaign is tied to all its targets in both directions or gathered as having none |
| VaultPlan.StoppedHasReason | scripts/export_vault.py:535-560 | The document a refused plan stops at lacks its external id or has an earlier document of another owner under its identity or URI |
| VaultPlan.PlanMeans | scripts/export_vault.py:473-694 | When all documents carry an identity, the plan succeeds if and only if no identity has two owners, and its notes are its identities |
| VaultPlan.VaultPlanner.PlanVault | scripts/export_vault.py:473-694 | The notes placed are those of exactly the documents given; all have different portable keys, every link names a planned note, every document is on its client's card; cards are named before notes, notes in the order of the documents, each with the first free name of its own: docs/ and the base, with a hyphen and the discriminator when its kind demands one, numbered after -dup- then and after _ otherwise; new notes link back to the cards of client and project, by name or company identity; campaigns are tied both ways or listed; a refusal stops at a document with a reason; two identities share a note if and only if some document merged them |
| VaultPlan.NoteNamed | scripts/export_vault.py:565-597 | A new note's path is docs/ with its base, and with the discriminator of the external id exactly when its kind demands one; a number follows only when that name's key is taken, the least one free, after -dup- with a discriminator and after _ without |
| VaultPlan.CardNamed | scripts/export_vault.py:504-519 | A card's path is clients/ with its base, numbered only when that key was taken before |
| VaultPlan.BacklinksMean | scripts/export_vault.py:600-612 | Every new note links to the card with its client's and its project's name, or else to that of the first client with the same company identity |
| VaultPlan.CampaignsMean | scripts/export_vault.py:622-685 | A campaign's note and the cards of the clients it is about link to each other, as do it and the related documents that are no campaigns; one without any is listed in another note |
| VaultPlan.TiesStay | scripts/export_vault.py:622-685 | Tying one campaign keeps the ties of all others |
| VaultFiles.TellsNext | scripts/export_vault.py:1020-1050 | After each export the manifest tells whether the last one was complete and which notes it managed |
| VaultFiles.WrittenAllAt | scripts/export_vault.py:1010-1014 | After the writes a portable path holds the last planned note for it, or what it held before |
| VaultFiles.ExportedVault.WriteVault | scripts/export_vault.py:944-1054 | One export, dry or committed, has exactly the specified effect on disk and manifest, or is refused before anything changes; each refusal is decided by the options and the numbers of names planned and known, and a prune that was not allowed to shrink removes at most as many entries as names were known, at most twice those planned |
| VaultFiles.RefusalIff | scripts/export_vault.py:890-912 | Each refusal holds if and only if: a prune of a partial export; leave to shrink without a prune; a prune without a managed note planned; one with fewer than half as many names planned as known and no leave to shrink |
| VaultFiles.RemovesAtMost | scripts/export_vault.py:1016-1030 | A prune removes at most as many entries as names were known, any other export none |
| VaultFiles.ExportedVault.Unlink | scripts/export_vault.py:1016-1030 | Deletions remove exactly the planned notes that still hold the recorded bytes, and the others are kept |
| VaultFiles.ExportedVault.LoadActive | scripts/build_app_html.py:2236-2345 | The loader accepts exactly publishable vaults and returns the portable keys of the active notes |
| VaultFiles.DistinctKeys | scripts/build_app_html.py:2262-2287 | The scan finds a repeated portable key if and only if there is one |
| VaultPublish.PruneLeaves | scripts/export_vault.py:896-941 | A prune leaves on record every stale name of an edited note and, of the other stale names of one key that are on disk, all but one |
| VaultPublish.PublishableIff | scripts/export_vault.py:944-1054 | A complete export will be accepted by the loader if and only if it plans a managed note, the names that stay on record besides the planned ones have different keys, at most one of each key as the prune leaves them, and the planned notes land in listed files: all of it said of the vault before the export |
| VaultPublish.UnprunedIff | scripts/export_vault.py:1033-1036 | Without pruning: if and only if the names on record and the planned ones together have different keys, a managed note is planned, and the notes land in listed files |
| VaultPublish.PruneMakesPublishable | scripts/export_vault.py:896-941 | With pruning, from a manifest and discovered notes whose keys differ, the loader accepts exactly the plan |
| VaultPublish.AliasBlocksLoader | scripts/export_vault.py:1033-1036 | Without pruning an old spelling of the planned note on record makes the loader refuse |
| VaultPublish.RenamedInCase | scripts/export_vault.py:1033-1036 | A note renamed in case only and exported twice without pruning is accepted the first time and refused the second |
| VaultPublish.UpperCaseSuffix | scripts/export_vault.py:1010-1014 | Where a user's file with an upper-case suffix stands in the place of a planned note, the export is refused by the loader |
| VaultPublish.DeletedIff | scripts/export_vault.py:896-941 | Outside the plan a note is deleted if and only if it is stale under some recorded name and unedited |
| VaultPublish.EditedNoteKeptIff | scripts/export_vault.py:930-940 | An edited note survives exactly when no other stale record of its portable path happens to match its bytes |
| VaultPublish.EditedNoteKept | scripts/export_vault.py:930-940 | With different keys on record an edited note always survives |
| VaultPublish.ForeignNoteKept | scripts/export_vault.py:944-1054 | A note neither planned nor on record is never touched |
| VaultPublish.PublishedIsLastExport | scripts/build_app_html.py:2254-2345 | Over any exports and edits, what the loader accepts is the last export, which was complete, byte for byte |
| VaultPublish.RunEvents | scripts/build_app_html.py:2254-2345 | Any sequence of exports, additions, edits and deletions, then the loader: it accepts exactly publishable states and returns the keys of the last committed export of the sequence, whose bytes are on disk |
| VaultPublish.PlannedFilesApart | scripts/export_vault.py:492-502 | The notes the planner leaves, written as files, have the different keys an export asks for |
| Quadtree.InsertCounts | scripts/build_app_html.py:1889-1894 | Inserting a body adds one to the mass and its coordinates to the sums of every cell it enters and keeps all cells balanced |
| Quadtree.BuildConserves | scripts/build_app_html.py:1900-1901 | The root holds the number of bodies and the sums of their coordinates |
| Quadtree.InsertForce | scripts/build_app_html.py:1895-1897 | With single bodies in the leaves, inserting a body adds exactly its pair force |
| Quadtree.ZeroThreshold | scripts/build_app_html.py:1896 | With threshold zero an inner cell is never taken as a whole |
| Quadtree.TreeIsDirectSum | scripts/build_app_html.py:1887-1897 | With threshold zero and at most one body per leaf the force from the tree is the direct sum over all other bodies |
| QuadtreeCells.Cell.QInsert | scripts/build_app_html.py:1889-1894 | Insertion in place computes the tree insertion, ending at the depth cap even for coincident bodies |
| QuadtreeCells.Cell.QForce | scripts/build_app_html.py:1895-1897 | The in-place traversal adds exactly the tree's force to one velocity, cells taken as a whole included |
| QuadtreeCells.BuildTree | scripts/build_app_html.py:1900-1901 | Inserting the listed bodies in order builds the specified tree |
| QuadtreeCells.RepelExactly | scripts/build_app_html.py:1900-1902 | Building and traversing in place changes the velocities by the direct sums |
| QuadtreeCells.Repel | scripts/build_app_html.py:1900-1902 | For any threshold, building and traversing in place adds the pushes of exactly the cells that are not opened, which cover the points; where all are taken as one, one push by their totals |
| QuadtreeCover.InsertHolds | scripts/build_app_html.py:1889-1894 | Every cell holds the number and the coordinate sums of exactly the points that fall into its square, also after an insertion |
| QuadtreeCover.ForceIsCoverSum | scripts/build_app_html.py:1895-1898 | For any kernel the force is the sum over the cells that are leaves or taken as a whole below opened ones; every point is below exactly one; each pushes with the totals of its points, and the own leaf gives nothing |
| QuadtreeCover.AllAsOne | scripts/build_app_html.py:1895-1897 | Where the root is taken as a whole the force is one push by the number and the sums of all points |
| QuadtreeCover.WholeIffFar | scripts/build_app_html.py:1895-1896 | A cell is taken as a whole if and only if its squared width is below the threshold times the softened squared distance to its centre of mass |
| QuadtreeMomentum.RepulsionOpposed | scripts/build_app_html.py:1895-1897 | Two points push each other with equal and opposite forces |
| QuadtreeMomentum.MomentumConserved | scripts/build_app_html.py:1895-1902 | So the direct sums over all listed points cancel |
| FeedbackMerge.RepresentativeGrows | scripts/build_app_html.py:262-276 | One step of the fold keeps the first dated event, else the first, with the first sender filled in |
| FeedbackMerge.DedupFbEvents | scripts/build_app_html.py:253-277 | The result is, per key, the representative at the place of its first event, and every event without a key |
| FeedbackMerge.FoldIdempotent | scripts/build_app_html.py:253-277 | Folding again changes nothing |
| FeedbackMerge.UniqueBound | scripts/build_app_html.py:2522-2543 | Unique events are at most all events less the overlap between variants |
| FeedbackMerge.CopyChangesNothing | scripts/build_app_html.py:2522-2543 | A verbatim copy of a note whose counted events all have keys leaves the merged count unchanged |
| FeedbackMerge.UnsharedCountsAdd | scripts/build_app_html.py:2522-2543 | Notes that share no event keep all they count, also what has no key or was not taken apart |
| FeedbackMerge.MemberCounts | scripts/build_app_html.py:2532 | Counts per key of one member, in order of first appearance |
| FeedbackMerge.SumOverlap | scripts/build_app_html.py:2536-2538 | The sum over keys of the total less the most in one member |
| FeedbackMerge.MergeFb | scripts/build_app_html.py:2522-2544 | The merged count |
| Ratings.LatestPerKey | scripts/answer_rating_summary.py:59-79 | One pass keeps the newest row of each group and every row without a key, newest first, and counts what it replaced |
| Ratings.ResolvedMembers | scripts/answer_rating_summary.py:59-79 | A row survives a pass if and only if it has no key or none of its group is newer |
| Ratings.PassOrderIndependent | scripts/answer_rating_summary.py:59-79 | With unique stamps the result of a pass does not depend on the order of its input |
| Ratings.PassFixed | scripts/answer_rating_summary.py:59-79 | A pass changes nothing in its own result |
| Ratings.StillOnePerSession | scripts/answer_rating_summary.py:91-96 | The pass by answer keeps one row per session |
| Ratings.ResolveRatings | scripts/answer_rating_summary.py:91-96 | At most one row per user and session and per user and answer, newest first; eligible rows are kept or counted as replaced, and of every eligible row its user keeps one at least as new |
| Ratings.RatingKept | scripts/answer_rating_summary.py:91-96 | Whatever both passes replace, a user keeps a rating at least as new as any eligible one of theirs |
| Ratings.ResolutionOrderIndependent | scripts/answer_rating_summary.py:91-96 | With unique stamps the resolution does not depend on the order of the rows |
| Ratings.ResolutionSettles | scripts/answer_rating_summary.py:91-96 | Resolving again replaces nothing and keeps every row, also where rows share creation time and id |
| Ratings.ResolutionIdempotent | scripts/answer_rating_summary.py:91-96 | With unique stamps resolving again keeps the order as well |
| BaseEnv.QuoteReadsBack | scripts/render_ec2_base_env.py:312 | A printed assignment is split into one word, the name and the value as they were |
| BaseEnv.PrintedReadsBack | scripts/render_ec2_base_env.py:244-261 | A printed assignment is parsed back to its name and value |
| BaseEnv.SplitJoined | scripts/render_ec2_base_env.py:297 | Lines without breaks, joined and split, are the same lines |
| BaseEnv.FirstAppearanceOrder | scripts/render_ec2_base_env.py:309-310 | Names come in the order of their first assignment |
| BaseEnv.LastValueWins | scripts/render_ec2_base_env.py:311 | The last assignment decides a name's value |
| BaseEnv.ReadIff | scripts/render_ec2_base_env.py:244-308 | A source is read if and only if each line is blank, a comment or an allowed assignment to a name no earlier line assigns |
| BaseEnv.LaterSourceOverrides | scripts/render_ec2_base_env.py:289-312 | A later source overrides the values of earlier ones and leaves their names where they are |
| BaseEnv.RenderIsFixpoint | scripts/render_ec2_base_env.py:289-312 | For all accepted input the rendered text reads back as the merge and renders to itself |
| BaseEnv.Render | scripts/render_ec2_base_env.py:289-312 | The loops compute that rendering or refuse |
| Chunks.AdvancesIff | scripts/demo_pdf_vectorize.py:77-90 | Every window of every text advances if and only if the overlap is less than the size and at most half the size plus one |
| Chunks.EndsAtBestMark | scripts/demo_pdf_vectorize.py:80-85 | A window ends behind the most preferred mark beyond its middle, the last of its kind, and at its full size without one |
| Chunks.JoinedIsText | scripts/demo_pdf_vectorize.py:77-90 | The windows so far, less their overlaps, are the text up to the last window's end |
| Chunks.WindowsRebuild | scripts/demo_pdf_vectorize.py:71-91 | No window exceeds the size, joining them rebuilds the text exactly, and their number is bounded linearly |
| Chunks.ChunkText | scripts/demo_pdf_vectorize.py:71-91 | The loop ends and returns the stripped non-empty windows of such a division |
| Migrations.RecordOfHas | scripts/migrate.py:76-80 | The record of the first n migrations holds exactly their versions with their texts |
| Migrations.StillToCome | scripts/migrate.py:112-185 | A version tried without force is on record by then exactly when an earlier migration of the run carries it |
| Migrations.PlainRunChooses | scripts/migrate.py:112-185 | With exactly the first n applied, a plain run applies exactly those from n up to where it stops |
| Migrations.Database.ApplyOne | scripts/migrate.py:83-109 | The text is executed and recorded together, or nothing happens |
| Migrations.Database.Run | scripts/migrate.py:112-185 | A run ends before the first migration that was changed since it was recorded or that fails, and executes exactly the due ones before, in order; it succeeds only when every one on record and not forced has its recorded text; a changed one ends it with code 1, and neither it nor a later one is executed; what is on record and not forced stays |
| Migrations.AllOnRecord | scripts/migrate.py:112-185 | A successful run that is no dry one leaves every migration it did not force on record with its text |
| Migrations.Database.RunLists | scripts/migrate.py:112-185 | Over any sequence of runs, each with files of its own: two successful ones found the same text under every version both have that was not forced since the earlier, so a changed migration is never passed over, and no version is executed twice unless forced |
| Migrations.Database.RunPlain | scripts/migrate.py:112-185 | From a prefix applied a run leaves a longer prefix applied, whole on success, ended by the migration that failed otherwise; after a success nothing changes |
| Migrations.Database.RunAll | scripts/migrate.py:112-185 | After any sequence of successful, failing and dry runs from empty, exactly a prefix has been committed, once each, in order |

## Left out

- AWS, Slack, database and subprocess calls: live inventories, plans and attestations are flags of the action that needs them; they are not atomic with the commit, as in the source.
- The cleanup record is read twice on some gate paths; the second read is taken as the first.
- `legacy_worker_deadline`, the static lists of reserved task definitions, configuration digests and other release details: not stored, or one `release` field.
- Intents are written by tooling outside the gate: one step of the environment.
- Transaction errors other than a failed condition, and sleeping between retries.
- HmacGate.LiveRolloutGate.Retry: the reads it repeats are those of the domain records, because only they are conditions of the retried transaction.
- HmacIssuers.IssuerSafety: asks that provenances bind their epoch, which the gate establishes by digests and the model takes as a condition on the actions; control files that pass those checks satisfy it (`HmacTable.AttestedBinds`).
- HmacFresh.RestartMade: the cutover deadline that a candidate's restart also meets when it is requested is not part of that action, which only admits more runs.
- HmacWitness.EpochsReachable: two thousand epochs, because the generation identifiers of these runs count in ones and an identifier has at most 2048 characters.
- The process-local layer of the keyring, key bytes, signatures and credential checks.
- HmacClock.ListedTaskArns: the service's replies are a given sequence; a service that invents tokens for ever keeps the source waiting, here the result `Waiting`. Describing the listed tasks in batches is left out.
- HmacClock.NeverAhead: supposes that the service's clock and the local one run at the same rate.
- Preflight: JSON shapes of the manifest are typed, so a T0 that is not an integer is not represented; the two domains and the fixed keys of a configuration are fields.
- Preflight.PlanAcceptedIff: case folding is that of ASCII, to which accepted generation identifiers are confined.
- Vault: symbolic links, file modes, unreadable manifests, the order of deletions and the printed counts. Portable keys are any function; planning assumes that numbered candidates keep different keys, as `VaultPlan.NumbersApart` says.
- VaultFiles.ExportedVault.WriteVault: no other process writes between planning a deletion and the check before unlinking, and that check is taken as always repeating the first.
- VaultPlan.VaultPlanner.PlanVault: note text is reduced to its wikilinks, file names to their bases, and the heuristics that relate campaigns to clients and documents to two given relations.
- QuadtreeCover.ForceIsCoverSum: how far the sum over whole cells is from the direct sum is not bounded.
- Quadtree.TreeIsDirectSum: coordinates are reals without rounding; integration, links between nodes and the clustering forces of the same step are not modelled.
- FeedbackMerge: parsing notes into events, and the other fields of the merged client.
- Ratings: score and user counters of the summary and its rendering.
- BaseEnv.RenderIsFixpoint: the allow-list and secret patterns are a given predicate on names and values; unreadable files are not modelled.
- Chunks.ChunkText: requires what makes every window advance; for other sizes and overlaps the source may not end, as `Chunks.AdvancesIff` says.
- Migrations.Database.Run: what the SQL does is not modelled, only whether the server rejects it.
- Ingest, OAuth, health checks, the user interface and infrastructure code: plumbing, or one branch at a time.
