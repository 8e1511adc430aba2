# Verification of the desktop backend's protocols and ledgers

This project models the parts of the c0wrk desktop backend that are small in code and hard to get right: lock-and-flag
protocols whose comments promise that no update is lost, ledgers edited in place by many operations, caches that may
be overtaken by invalidations, and a few encodings and parsers that must lose nothing.

| file | models |
|---|---|
| `GitTrust.dfy`, `TrustLedger.dfy`, `TrustLoading.dfy` | trusted and hardened repositories, their fingerprints and the spawn registry; the calls; the lists as the loader admits them |
| `ProjectSwitch.dfy` | the project switch and the deferred vector setup |
| `EmbeddedRefresh.dfy` | the single-flight router refresh |
| `PackGates.dfy` | the sidebar surface gates against the launch seed |
| `ProxyPush.dfy` | the proxy settings and the token manager's client |
| `GenerationCache.dfy` | the generation-tagged listing caches |
| `InstallGate.dfy` | the install and removal gate with its published cancel |
| `EmbeddedConfig.dfy` | the configuration writes of an install, a removal, a moved port and a corrected window |
| `PinLists.dfy`, `ResearchPins.dfy`, `PinRaces.dfy` | the pins of a project row, their read-modify-write under a per-root mutex, and exactly when a rename or a pin is lost |
| `AutoFetch.dfy` | the minimum fetch interval and the ticker |
| `GitCaches.dfy` | the TTL caches of git results |
| `ModelOverrides.dfy`, `TuningPatch.dfy` | the sparse model overrides and the tuning patch |
| `HunkParser.dfy`, `Commands.dfy`, `CappedBuffer.dfy` | the hunk parser, the frontmatter splitter with command discovery, and the capped output buffer |
| `Text.dfy`, `Wrappers.dfy` | the string operations, result shapes and the notion of a filtered list the others share |

How a protocol is modelled. A `State` holds the shared fields, the mutexes and one stage per thread; `Next` takes one
atomic section of one thread, or one step of the outside world, and leaves the state alone when the section cannot
run; `Run` follows any list of steps. Results are stated for every run, so for every number of threads in every
interleaving. Beside the state machine stands a class with the fields and methods of the source, whose methods say
what one call does when nothing else runs; where a section is shared with the machine, it is proved equal to the
machine's function.

What is assumed. Path resolution, hashing, the semantic snapshot, `proxy.MaskURL`, `strings.TrimSpace` on bytes,
`path.Clean` and `papers.Slugify` are parameters. `GitTrust.CoherentPaths` and `GitTrust.FaithfulSnapshots` say what is
assumed of the first three: cleaned and canonical paths are fixed points, a root resolves to itself, hashes do not
collide, and a stored snapshot is read back with the meaning it had; `GitTrust.CoherentWorkTrees`, for the spawn rule
alone, that resolved spellings are clean and a work tree's root lies in its repository. Everything else the outside world answers
(git, the disk, the store, the clock, whether a write, a router build or a pack pass succeeds) is a free choice of the
run or of the caller, except that clocks do not run backwards and the vector factory, once ready, stays ready. One `char` of `CappedBuffer` is one byte.

Where the code and its documentation part ways, the model follows the code:

* Two entries of one trust list may denote one repository: the loader compares only cleaned paths within a list
  (`TrustLoading.LoaderAdmitsOneRepositoryTwice`). `GitTrust.RunKeepsUnambiguous` therefore starts from lists without such pairs.
* An eviction trims the path it removes, so a drifted repository whose path begins or ends with white space keeps its trust unless the
  trimmed path resolves to it (`GitTrust.EvictForgetsExactlyResolvingPaths`), and another one may lose it (`TrustLoading.EvictionTakesTheWrongRecord`).
* `core/workspace/gitconfig.go:1739-1741` says that trust matching never crosses a repository boundary, and
  `specs/decisions/034-git-trust-opt-out.md:184-187` that a hardened root is never raw-git eligible. The probed directory's symlink-resolved spelling
  crosses it: exactly in directories that are links to a trusted root does a hardened repository run raw git
  (`GitTrust.HardenedDirectoryRunsRawExactly`, `GitTrust.HardenedLinkRunsRaw`).
* A recheck of an unmigrated record that another recheck migrated meanwhile evicts it, changed or not (`TrustLedger.SecondMigrationFindsNothing`).
* `backend/frontend_api_embedded.go:1942-1944` says that no correction is lost. None misses a rebuild, but a rebuild that fails is not repeated: the
  live sessions have the correction, the router may not (`EmbeddedRefresh.RouterServesExactlyOnceBuilt`, `EmbeddedRefresh.FailedRebuildStrandsTheCorrection`).
* `backend/frontend_api_config.go:455-458` lets the read lock span snapshot and rebuild so that a concurrent writer's changes are never rolled back.
  A proxy save lets it go in between, and its rebuild does roll them back (`EmbeddedRefresh.ProxySaveRollsBackTheRouter`).
* `backend/frontend_api_config.go:711-716` says that the mask never becomes the stored password. It does from a form shown before another URL was saved
  (`ProxyPush.OnlyGivenStoredExactlyWhenFormsFit`, `ProxyPush.StaleFormStoresTheMask`).
* A failed pack pass is logged and not repeated until the next toggle or launch, so the disk may disagree with the gate (`PackGates.PacksMatchPersistedGates`).
* `backend/frontend_api_research.go:789-792` says that all writers of the projects row share the per-root mutex. Renames and activity
  stamps do not, and a full-row save reverts a rename that falls into its window (`PinRaces.NameStandsExactlyWhenSavesAreCurrent`,
  `PinRaces.RenameInWindowIsReverted`).
* The root check of a pin call does not protect its save from a session change after the check
  (`PinRaces.LostUpdateNeedsASessionMove`, `PinRaces.RootChangeInWindowLosesAnUpdate`).
* A synchronous install refusal records its error after freeing the gate, so it can appear beside a newer, live install,
  which `backend/frontend_api_embedded.go:914-916` calls a contradiction (`InstallGate.LateRefusalShadowsLiveInstall`).
* `backend/frontend_api_embedded.go:1608-1609` says that a removal drops the removed model's override. It keeps it, and seeds its output
  limit where there was none (`EmbeddedConfig.OverridesSync`).
* `backend/frontend_api_embedded.go:1592-1595` says that the removal gate tests the same predicate as the refusal behind it. The two differ
  exactly on an empty default model (`EmbeddedConfig.GateAgreesExactlyWithADefault`).
* The git caches may serve a result from before an invalidation, for less than one TTL (`GitCaches.OvertakenRunIsServed`).
* The drain's check that its project is still active never fails (`ProjectSwitch.DrainIsNeverSuperseded`).

## Model

| member | source | states |
|---|---|---|
| `GitTrust.RunKeepsReviewed` | backend/frontend_api_gitconfig_risk.go:523-702 | over every run of trust, harden, remove, migrate, refresh and evict steps, on stale copies too: each record's raw fingerprint names bytes that mean what the user reviewed, its semantic fingerprint is empty or that meaning's |
| `GitTrust.QuietExactlyWhileReviewed` | backend/frontend_api_gitconfig_risk.go:523-602 | a migrated record raises no warning exactly while the configuration found now means what was reviewed, and its snapshot moves exactly when the bytes did |
| `GitTrust.MigrationRecoversTheReview` | backend/frontend_api_gitconfig_risk.go:611-666 | a snapshot that passes its hash check migrates a record to the meaning that was reviewed, and to no other |
| `GitTrust.RunKeepsExclusive` | backend/frontend_api_gitconfig_risk.go:218-461 | in no reachable ledger do a trusted and a hardened entry share a trust-key form, and the registry is the trust-root image of the trusted list |
| `GitTrust.RunKeepsUnambiguous` | backend/frontend_api_gitconfig_risk.go:218-461 | from lists whose own entries share no form, no run ever makes two entries of one list share one; transitivity of overlap is neither assumed nor true |
| `GitTrust.HardenedNeverRunsRaw` | core/gittrust/gittrust.go:54-63 | no form of a recorded hardened path is ever registered, so neither the path nor its key runs raw git |
| `GitTrust.HardenedDirectoryRunsRawExactly` | core/workspace/git.go:106-138 | by the spawn rule, which probes every form: a directory inside a hardened repository runs raw git exactly when its own symlink-resolved spelling, or its linked worktree's, is registered and a linked worktree's overlay is clean |
| `GitTrust.HardenedLinkRunsRaw` | core/workspace/gitconfig.go:1733-1766 | it happens through a link from a hardened repository to a trusted place, on a ledger in which the two exclude each other |
| `GitTrust.RegistryMeans` | backend/frontend_api_gitconfig_risk.go:177-191 | registered are exactly both spellings of every trusted record's root, the filesystem root and unnamed ones excepted |
| `GitTrust.TrustedRunsRaw` | backend/frontend_api_gitconfig_risk.go:177-191 | every trusted repository's root runs raw git, under its symlink-resolved spelling too |
| `GitTrust.AcceptedExactly` | backend/frontend_api_gitconfig_risk.go:218-291 | trust and harden succeed exactly for a named, absolute path that is a directory, trust only with a scan whose snapshots were stored; a refusal changes nothing |
| `GitTrust.RefusedByName` | backend/frontend_api_gitconfig_risk.go:218-250 | and which refusal is reported for which path |
| `GitTrust.TrustTakesEffect` | backend/frontend_api_gitconfig_risk.go:218-291 | a trust step of a run adds one record of the reviewed bytes and their meaning under the key, on which a recheck of those bytes is silent, unless a record overlaps it already; of the hardened entries exactly the overlapping ones go, in order |
| `GitTrust.HardenTakesEffect` | backend/frontend_api_gitconfig_risk.go:385-427 | a harden step appends the key unless an entry overlaps it already, takes exactly the overlapping trusted records away, and leaves the repository without raw git |
| `GitTrust.UntrustTakesEffect` | backend/frontend_api_gitconfig_risk.go:296-327 | a removal is refused exactly for a blank path; otherwise exactly the records that overlap the trimmed path go, in order, the hardened list stays and the registry follows; an eviction is the removal of its copy's path |
| `GitTrust.UnhardenTakesEffect` | backend/frontend_api_gitconfig_risk.go:431-461 | likewise for a hardening, whose removal touches neither the trusted list nor the registry |
| `GitTrust.CopyTakesEffect` | backend/frontend_api_gitconfig_risk.go:99-114 | a copy taken is of the first record that overlaps the path, and nothing else changes |
| `GitTrust.MigrateTakesEffect` | backend/frontend_api_gitconfig_risk.go:611-666 | a migration gives exactly the copy's records that lack it the semantic fingerprint of the stored bytes, if these are what the raw fingerprint names and can be read; else it changes nothing |
| `GitTrust.RefreshTakesEffect` | backend/frontend_api_gitconfig_risk.go:672-702 | a refresh moves the raw fingerprint of exactly the copy's records to the bytes found, if these mean what the semantic one names; else it changes nothing |
| `GitTrust.OverlapThroughKey` | backend/frontend_api_gitconfig_risk.go:122-131 | around a recorded key the overlap relation is transitive, which is why a decision has one meaning |
| `GitTrust.OverlapNotTransitive` | core/workspace/gitconfig.go:1743-1766 | in general it is not: a machine on which two unrelated paths overlap a third |
| `GitTrust.EvictionReaches` | backend/frontend_api_gitconfig_risk.go:296-327 | on any machine a record stays through the eviction of a copy exactly when nothing is left of the copy's trimmed path or the record does not overlap it |
| `GitTrust.EvictForgetsExactlyResolvingPaths` | backend/frontend_api_gitconfig_risk.go:708-712 | evicting a recorded root forgets every record of its repository exactly when the trimmed path still resolves to that root; otherwise the drifted record stays trusted |
| `GitTrust.EvictForgets` | backend/frontend_api_gitconfig_risk.go:708-712 | so a copy whose path has no outer white space takes its whole repository with it |
| `GitTrust.PlainEviction` | backend/frontend_api_gitconfig_risk.go:296-327 | where every path has one form, exactly the record of the trimmed path goes |
| `TrustLedger.FrontendAPI.TrustProbePaths` | core/workspace/gitconfig.go:1743-1766 | the probe list holds exactly the trust-key forms of a path, without the empty one |
| `TrustLedger.FrontendAPI.TrustEntryMatchesPath` | backend/frontend_api_gitconfig_risk.go:122-131 | true exactly when some form of the entry is among the candidates |
| `TrustLedger.FrontendAPI.TrustedGitRepoEntryFor` | backend/frontend_api_gitconfig_risk.go:99-114 | a copy of the first overlapping record, none exactly when no record overlaps |
| `TrustLedger.FrontendAPI.SyncGitTrustRegistry` | backend/frontend_api_gitconfig_risk.go:177-191 | the registry becomes both spellings of every trusted entry's root, and nothing else stays in it |
| `TrustLedger.FrontendAPI.RemoveTrustedPathLocked` | backend/frontend_api_gitconfig_risk.go:334-347 | keeps exactly the records that do not overlap, in order, and reports whether one did |
| `TrustLedger.FrontendAPI.RemoveHardenPathLocked` | backend/frontend_api_gitconfig_risk.go:352-365 | the same for the hardened list |
| `TrustLedger.FrontendAPI.TrustGitRepo` | backend/frontend_api_gitconfig_risk.go:218-291 | the new ledger and the answer for every refusal and for success, as the sections the run results are about |
| `TrustLedger.FrontendAPI.HardenGitRepo` | backend/frontend_api_gitconfig_risk.go:385-427 | the same for hardening |
| `TrustLedger.FrontendAPI.RemoveTrustedGitRepo` | backend/frontend_api_gitconfig_risk.go:296-327 | the same for removing trust, after which the registry mirrors what is left |
| `TrustLedger.FrontendAPI.RemoveHardenGitRepo` | backend/frontend_api_gitconfig_risk.go:431-461 | succeeds exactly with a configuration and a path that is not blank; then exactly the entries that overlap the trimmed path are gone, the others in order, and trusted list and registry as they were |
| `TrustLedger.FrontendAPI.MigrateTrustedGitRepoRecord` | backend/frontend_api_gitconfig_risk.go:611-666 | rewrites only records with the copy's path and raw fingerprint and no semantic one; reports the migrated copy only if one was rewritten |
| `TrustLedger.FrontendAPI.RefreshTrustedGitRepoRawSnapshot` | backend/frontend_api_gitconfig_risk.go:672-702 | moves the raw fingerprint of exactly the records the copy stands for |
| `TrustLedger.FrontendAPI.EvictTrustedGitRepo` | backend/frontend_api_gitconfig_risk.go:708-712 | leaves exactly the records that do not overlap the copy's trimmed path, and the registry that mirrors them |
| `TrustLedger.FrontendAPI.RecheckTrustedGitRepo` | backend/frontend_api_gitconfig_risk.go:523-602 | for every copy, stale or of any path: silent exactly when the copy has its semantic fingerprint or a listed record can still be given it from the snapshot, and the configuration means what was reviewed; then the copy's records are bound to the bytes found. Otherwise the copy is evicted, with the warning that its trust is unverifiable or that it drifted |
| `TrustLedger.SecondMigrationFindsNothing` | backend/frontend_api_gitconfig_risk.go:611-666 | of two rechecks of one unmigrated copy the second therefore evicts a repository whose meaning did not change |
| `TrustLoading.LoadTrusted` | backend/config/config.go:2932-2957 | accepts exactly lists of absolute, well-formed, distinct cleaned paths, and returns them cleaned with all their forms |
| `TrustLoading.LoadHardened` | backend/config/config.go:2959-2984 | accepts exactly lists of absolute, distinct cleaned paths that share no form with the trusted ones |
| `TrustLoading.LoadTrustLists` | backend/config/config.go:2926-2984 | the loader's verdict on both lists together |
| `TrustLoading.LoadableStartsValid` | backend/config/config.go:2926-2984 | every configuration the loader accepts starts a run on which the ledger results hold |
| `TrustLoading.LoaderAdmitsOneRepositoryTwice` | backend/config/config.go:2932-2957 | within one list only cleaned paths are compared: a worktree can be trusted beside its own repository |
| `TrustLoading.EvictionTakesTheWrongRecord` | backend/config/config.go:2932-2957 | the loader does not trim: with a path and the same path followed by a space both trusted, evicting the second removes the first and keeps the second |
| `ProjectSwitch.SlotHoldsActiveProject` | backend/frontend_api_project.go:889-935 | while the factory is not ready and no switch runs, the deferred slot is the active project, empty for No Project |
| `ProjectSwitch.NoSetupLost` | backend/frontend_api_project.go:889-935 | once it is ready, the setup still waits in the slot or the last focus request was for the active project |
| `ProjectSwitch.DrainedFocusesActive` | backend/frontend_api.go:1097-1127 | after a drain the slot stays empty and, whenever no switch runs, the last focus request is for the active project |
| `ProjectSwitch.FailedSwitchChangesNothing` | backend/frontend_api_project.go:300-461 | a failed switch leaves the active project and the watcher as it found them |
| `ProjectSwitch.AnnouncementNamesActive` | backend/frontend_api_project.go:300-461 | the last project:switched event names the active project, and a successful switch is the one in effect |
| `ProjectSwitch.WatcherFollowsTrackedTree` | backend/frontend_api_project.go:552-672 | an indexed project with a checkout is watched at its tracked tree whenever its watcher started, and nothing is watched when it did not |
| `ProjectSwitch.DrainIsNeverSuperseded` | backend/frontend_api.go:1097-1127 | a drained project is always still active, so the drain's own check never turns it away |
| `ProjectSwitch.HolderProceeds` | backend/frontend_api_project.go:300-461 | whatever the world answers, each step of the switch mutex's holder brings it closer to letting go, it always has one, and nobody else moves it |
| `ProjectSwitch.StepsMakeTheSwitch` | backend/frontend_api_project.go:300-461 | the steps of an admissible switch, taken one after another, are that switch |
| `ProjectSwitch.StepsMakeTheDrain` | backend/frontend_api.go:1097-1127 | and those of a drain that finds a setup waiting for the active project request it |
| `ProjectSwitch.AcquireSwitchLock` | backend/frontend_api_project.go:477-497 | gives up only when the budget is spent, having waited no longer, and takes the lock as soon as a poll finds it free |
| `ProjectSwitch.FrontendAPI.SwitchProjectSetupVector` | backend/frontend_api_project.go:889-935 | records or supersedes the deferred project and requests or leaves the focus, as the interleaved steps do |
| `ProjectSwitch.FrontendAPI.SwitchProjectSetupWatcher` | backend/frontend_api_project.go:631-672 | closes the old watcher first and starts one on the session's tree, else the checkout |
| `ProjectSwitch.FrontendAPI.SwitchProject` | backend/frontend_api_project.go:300-461 | succeeds exactly when the project exists, git is there or not needed, and the setup is not refused, and then the watcher, tracked roots, deferred setup, focus and event are those of the project and its session's tree; each refusal is named and announced as the source does and leaves no trace; the active project is answered without a switch |
| `ProjectSwitch.FrontendAPI.InitVectorIndexForActiveProject` | backend/frontend_api.go:1097-1127 | takes the deferred project and focuses it, changing neither the active project nor the watcher |
| `EmbeddedRefresh.CorrectionCovered` | backend/frontend_api_embedded.go:551-618 | every scheduled correction is covered by a rebuild whose snapshot was taken after it, or such a snapshot is still ahead |
| `EmbeddedRefresh.ClosedWindowReachesLiveSessions` | core/builder.go:2467-2483 | once the refresh window closes, the live sessions have every scheduled correction, whether or not a router could be built |
| `EmbeddedRefresh.RouterServesExactlyOnceBuilt` | backend/frontend_api_embedded.go:1916-1935 | with rebuilds that may fail: the router has every scheduled correction exactly when some router was ever built from a configuration that has them all |
| `EmbeddedRefresh.LastRebuildServes` | backend/frontend_api_embedded.go:1964-1977 | a closed window has served them all if a router was built from its last snapshot |
| `EmbeddedRefresh.FailedRebuildStrandsTheCorrection` | backend/frontend_api_embedded.go:1931-1934 | otherwise it may not: a window that closes after a failed rebuild, with the correction in no router and nothing scheduled |
| `EmbeddedRefresh.AtMostOneRunner` | backend/frontend_api_embedded.go:1945-1977 | there is never more than one runner, dirty implies scheduled, and rebuilds never outnumber the schedule calls |
| `EmbeddedRefresh.RouterReceivesCurrentConfig` | backend/frontend_api_embedded.go:1916-1935 | a rebuild under the read lock puts the configuration current at that moment into the router; a proxy save does exactly when nothing was written since its snapshot |
| `EmbeddedRefresh.ProxySaveRollsBackTheRouter` | backend/frontend_api_config.go:738-754 | a proxy save that began before a model setting was saved and built takes it out of the router again |
| `EmbeddedRefresh.OpenWindowProceeds` | backend/frontend_api_embedded.go:1964-1977 | an open window always has a step of its own, whether its build succeeds or not, and each brings it closer to closing |
| `EmbeddedRefresh.FrontendAPI.ScheduleEmbeddedRouterRefresh` | backend/frontend_api_embedded.go:1945-1960 | starts a runner only when none is scheduled, and otherwise leaves the dirty flag |
| `EmbeddedRefresh.FrontendAPI.RunEmbeddedRouterRefresh` | backend/frontend_api_embedded.go:1964-1977 | goes round until no correction landed during a round; the live sessions end on the newest configuration, the router on that of the last round that could build one |
| `PackGates.PacksMatchPersistedGates` | backend/frontend_api_packgates.go:31-113 | once the launch seed and all toggles have finished, in any interleaving, the last pass on each surface was asked for the persisted gate, so the packs on disk are the gate's exactly when that pass succeeded |
| `PackGates.TouchedSurfaceMatches` | backend/frontend_api_packgates.go:31-113 | also without a seed, whenever the config mutex is free a touched surface matches its gate exactly when its last pass succeeded |
| `PackGates.MirrorAgreesWithConfig` | backend/frontend_api_packgates.go:108-113 | whenever the config mutex is free, a mirror that was written equals the gate, in memory and on disk |
| `PackGates.NoDeadlock` | backend/frontend_api_research.go:1114-1144 | while a thread is unfinished some thread can move: the two mutexes are never waited for in a circle |
| `PackGates.MovesMakeProgress` | backend/frontend_api_research.go:1114-1144 | every move brings the run closer to its end |
| `PackGates.ToggleAlone` | backend/frontend_api_packgates.go:31-113 | a toggle that meets no obstacle leaves its gate, the mirror and its packs as asked, and the other surface untouched |
| `PackGates.SeedAlone` | backend/frontend_api_research.go:1114-1144 | a launch seed alone installs the packs of a surface whose gate is unset or on and removes those of one that is off |
| `PackGates.FrontendAPI.SetSurfaceEnabled` | backend/frontend_api_packgates.go:31-82 | an accepted toggle persists its gate and leaves the disk matching it exactly when its pass succeeded; a refused or unsaved one rolls back, and the other surface is untouched |
| `PackGates.FrontendAPI.SeedGlobalPacks` | backend/frontend_api_research.go:1114-1144 | each surface matches its persisted gate exactly when its own pass succeeded, whatever the disk held, going by the session's mirror where there is one |
| `ProxyPush.FinishedPushesInSync` | backend/frontend_api_auth.go:715-735 | once every proxy save and push has finished, the published manager's client is the one built from the current settings, saves that raced the publication included |
| `ProxyPush.SavesAndRestoresTakeEffect` | backend/frontend_api_auth.go:187-208 | in every run the settings have moved once per save that wrote, and a manager is published exactly when the restore has published one |
| `ProxyPush.ClientNeverGoesBack` | backend/frontend_api_auth.go:715-735 | the installed sequence number and the client's settings never go back, however long a push is preempted |
| `ProxyPush.NoDeadlock` | backend/frontend_api_auth.go:715-735 | while a push is unfinished some thread can move |
| `ProxyPush.MovesMakeProgress` | backend/frontend_api_auth.go:715-735 | every move brings the run closer to its end |
| `ProxyPush.SavingWhatIsShownKeepsTheURL` | backend/frontend_api_config.go:702-728 | saving the form as it is shown at that moment changes nothing, and an edit of another field keeps the URL |
| `ProxyPush.OnlyGivenStoredExactlyWhenFormsFit` | backend/frontend_api_config.go:702-728 | over any run of saves from forms of any age: only URLs that somebody gave are ever stored exactly when every untouched URL field masks the URL stored at that moment, or holds no mask |
| `ProxyPush.StaleFormStoresTheMask` | backend/frontend_api_config.go:712-721 | a form shown before another URL was saved stores the masked password |
| `ProxyPush.PushOrderDoesNotMatter` | backend/frontend_api_auth.go:726-733 | whatever order the drawn clients arrive in, the one with the highest number is left installed |
| `ProxyPush.FrontendAPI.PushChatGPTManagerProxyClientLocked` | backend/frontend_api_auth.go:715-735 | a published manager ends on the client of the current settings; without one no number is drawn |
| `ProxyPush.FrontendAPI.InitChatGPTAuth` | backend/frontend_api_auth.go:187-208 | a manager built from settings of long ago is on the current ones once published |
| `ProxyPush.FrontendAPI.UpdateProxySettings` | backend/frontend_api_config.go:702-767 | stores switch and certificate directory as sent, the bypass list if sent, and the URL unless it is the stored one's mask, and moves the manager to the result, also when the rebuild fails and is reported |
| `GenerationCache.EveryListIsFresh` | backend/frontend_api_skills.go:32-51 | any list a call returns is for its own project directory, and its scan began after every invalidation before the call's generation load, unless the counter went once round in between |
| `GenerationCache.CallSeesEarlierInvalidations` | backend/frontend_api_skills.go:60-63 | counted from the start of the call, a refresh call seeing its own invalidation, for any run of fewer than 2^64 invalidations |
| `GenerationCache.RefreshInvalidatesFirst` | backend/frontend_api_agents.go:71-74 | a refresh call begins with its own invalidation and counts it |
| `GenerationCache.MissingReaderFills` | backend/frontend_api_agents.go:32-57 | a reader that finds no entry of its generation and directory scans what is there and stores it |
| `GenerationCache.SlowStoreOnlyMisses` | backend/frontend_api_agents.go:32-57 | a slow scan that overwrites a newer entry can only make readers miss |
| `GenerationCache.WrappedCounterServesStaleList` | backend/frontend_api_commands.go:42-57 | the bound is exact: after 2^64 invalidations a reader is handed the list from before the change |
| `GenerationCache.RosterIsTheVisible` | backend/frontend_api_agents.go:43-50 | a name is listed exactly when a profile that is not hidden carries it |
| `GenerationCache.RosterConcat` | backend/frontend_api_agents.go:43-50 | hiding a profile disturbs no order |
| `GenerationCache.FrontendAPI.ListAgents` | backend/frontend_api_agents.go:16-59 | the cached list for the same generation and directory, else the roster of what is found, which is then cached |
| `GenerationCache.FrontendAPI.RefreshAgents` | backend/frontend_api_agents.go:71-74 | re-scans whatever was cached |
| `InstallGate.OneOperationAtATime` | backend/frontend_api_embedded.go:1227-1261 | install and removal never hold the gate together, the gate names its holder's kind, and it is free only when nobody holds it |
| `InstallGate.CancelOnlyWhileInstalling` | backend/frontend_api_embedded.go:1266-1288 | a published cancel implies the gate is held by that install, a requested flag a published cancel, and a free gate neither: every way out withdraws first |
| `InstallGate.QuietExactlyWhenClicked` | backend/frontend_api_embedded.go:1294-1300 | a run ending in context.Canceled is quiet exactly when the operator clicked cancel on that very run |
| `InstallGate.UnclickedRunIsNotCancelled` | backend/frontend_api_embedded.go:971-987 | a click that fires late cancels only the run it was made on |
| `InstallGate.NothingLeaks` | backend/frontend_api_embedded.go:1332-1437 | after every refusal, failure, panic and success the gate is free and nothing is published |
| `InstallGate.LiveInstallShowsOnlyRefusals` | backend/frontend_api_embedded.go:901-916 | an install that cleared the last error shows no earlier run's one, except a refusal recorded after letting the gate go |
| `InstallGate.StaleErrorExactlyFromLateRefusal` | backend/frontend_api_embedded.go:1432-1437 | exactly those late records put an error beside a live install |
| `InstallGate.LateRefusalShadowsLiveInstall` | backend/frontend_api_embedded.go:1432-1437 | a run in which one does |
| `InstallGate.EveryCallMovesOn` | backend/frontend_api_embedded.go:901-987 | nobody waits, and every move brings its own call closer to its end |
| `InstallGate.InstallStarts` | backend/frontend_api_embedded.go:901-960 | an install on a free gate claims it, publishes its own cancel and clears the last error before it runs |
| `InstallGate.InstallEnds` | backend/frontend_api_embedded.go:1332-1437 | however a run ends, its call frees the gate, withdraws and fires its cancel, and records an error exactly for a failure, a panic or a cancellation nobody asked for |
| `InstallGate.InstallIsRefused` | backend/frontend_api_embedded.go:1432-1437 | a refused one does the same and records its refusal last |
| `InstallGate.ClickTakesEffect` | backend/frontend_api_embedded.go:971-987 | a click requests and fires the published cancel, and does nothing without one |
| `InstallGate.RemovalAlone` | backend/frontend_api_embedded.go:1037-1100 | a removal on a free gate clears the last error, records its own if any and frees the gate |
| `InstallGate.EmbeddedState.BeginOperation` | backend/frontend_api_embedded.go:1227-1236 | claims a free gate, else names the holder and changes nothing |
| `InstallGate.EmbeddedState.EndInstallRun` | backend/frontend_api_embedded.go:1278-1288 | withdraws the published cancel and fires it |
| `InstallGate.EmbeddedState.CancelInstall` | backend/frontend_api_embedded.go:971-987 | requests and fires the published cancel, a no-op without one |
| `InstallGate.EmbeddedState.RefuseInstall` | backend/frontend_api_embedded.go:1432-1437 | leaves the gate free, nothing published and the refusal recorded |
| `InstallGate.EmbeddedState.FinishInstall` | backend/frontend_api_embedded.go:1332-1426 | whatever the ending: gate free, cancel withdrawn and fired, and an error recorded exactly for a failure, a panic or a cancellation nobody asked for |
| `EmbeddedConfig.SyncReconciles` | backend/config/config.go:1263-1292 | syncing makes the provider exist exactly while installed and serve the persisted port, keeps the token reserve and all other providers, and a second sync changes nothing |
| `EmbeddedConfig.WritesKeepTheConfig` | backend/frontend_api_embedded.go:1520-1635 | over every sequence of installs, removals, moved ports and corrected windows, failed writes included: the provider follows the record, the default model is never lost nor the embedded one without an install, and engine, tuning, auto-unload, other providers and other overrides stay |
| `EmbeddedConfig.UninstalledLeavesTheProviders` | backend/config/config.go:1263-1292 | so whatever happened in between, without an install the providers are those there were, less the generated one |
| `EmbeddedConfig.OverridesSync` | backend/config/config.go:1298-1335 | a known window is recorded and an output limit seeded only where there is none; no other override moves, and a removal does not drop the model's own |
| `EmbeddedConfig.OutputCeiling` | backend/config/config.go:1298-1303 | the seeded output limit is 8192, or a quarter of a known window where that is less |
| `EmbeddedConfig.GateAgreesExactlyWithADefault` | backend/frontend_api_embedded.go:1054-1068 | the check before the files are deleted and the refusal behind it agree exactly where a default model is set |
| `EmbeddedConfig.FirstOtherIsOther` | backend/frontend_api_embedded.go:1984-1991 | the migration target is another enabled model, missing only when there is none |
| `EmbeddedConfig.FirstOtherIsFirst` | backend/frontend_api_embedded.go:1984-1991 | and it is the first one in the list |
| `EmbeddedConfig.FrontendAPI.SyncEmbeddedLLMProvider` | backend/config/config.go:1251-1292 | both tables take their synced contents in fresh copies: a table someone else holds never changes |
| `EmbeddedConfig.FrontendAPI.ApplyInstalled` | backend/frontend_api_embedded.go:1520-1567 | is the install step of those sequences: the section holds the install's record, the provider is on its port, the model has its window, auto-unload is filled in only where unset, engine, tuning and default model stay; a failed write restores both sections to the reference |
| `EmbeddedConfig.FrontendAPI.ApplyRemoved` | backend/frontend_api_embedded.go:1573-1617 | is their removal step, refused exactly without another model to move to; refusal and failed write change nothing |
| `EmbeddedConfig.FrontendAPI.PersistEmbeddedPort` | backend/frontend_api_embedded.go:501-527 | is their port step: the port and its provider record move together, or neither |
| `EmbeddedConfig.FrontendAPI.PersistEmbeddedContext` | backend/frontend_api_embedded.go:551-618 | is their context step; a refresh is scheduled exactly when a window in range changed something and was written |
| `ResearchPins.ReplayedExactlyWhenCommitsFit` | backend/frontend_api_research.go:767-897 | over every run: the row's pins are the committed edits in order at every moment exactly when every commit does to the current pins what it did to those it loaded |
| `ResearchPins.PinsAreTheReplay` | backend/frontend_api_research.go:767-897 | in particular while no call's window sees the effective root change, in the order the mutex admitted them, for any interleaving |
| `ResearchPins.EachCommitCountsOnce` | backend/frontend_api_research.go:767-897 | each call that reports success is in that order exactly once with the edit it was asked for, and no other call is |
| `ResearchPins.DeletedDirectoryStaysUnpinned` | backend/frontend_api_research.go:681-760 | after a deletion commits, no research or hypothesis pin lies under its directory until the directory exists again |
| `ResearchPins.DeletionTouchesOnlyItsDirectory` | backend/frontend_api_research.go:945-975 | a deletion removes exactly the pins under its directory; other research pins and all paper pins stay |
| `ResearchPins.BriefEditMeans` | backend/frontend_api_research.go:767-821 | pinning a brief sets that path's state in the research list, the others in order, and touches no card and no paper |
| `ResearchPins.CardEditMeans` | backend/frontend_api_research.go:868-886 | pinning a card sets that card's state under that id and no other's, and leaves no id without a card |
| `ResearchPins.PaperEditsMean` | backend/frontend_api_papers.go:175-253 | pinning a paper appends its path, unpinning drops exactly the paths that refer to it, in order; neither touches the rest |
| `ResearchPins.CallAloneCommits` | backend/frontend_api_research.go:767-897 | a call that meets no obstacle commits its edit to the row as it is, lets the mutex go and is logged once; a deletion takes its directory away |
| `PinRaces.LostUpdateNeedsASessionMove` | backend/frontend_api_research.go:793-815 | a commit that does not fit had a call under another root save in its window, and the session moved the effective root in the window of one of the two |
| `PinRaces.RootChangeInWindowLosesAnUpdate` | backend/frontend_api_research.go:793-800 | such a run: both calls report success, both pins are due by the order of the commits, and the one saved first is gone |
| `PinRaces.NameGoesBack` | backend/frontend_api_research.go:793-815 | after any run the row's name is the one last given at the moment its saves go back to through the loads of their calls, so the last rename stands exactly when that is the same name |
| `PinRaces.NameStandsExactlyWhenSavesAreCurrent` | backend/frontend_api_research.go:793-815 | over every run: the row has the last name given at every moment exactly when every save comes from a call that loaded under the name still last given |
| `PinRaces.RenamesOutsideWindowsStay` | backend/project/persistence.go:225-231 | in particular when every rename falls outside all load-to-save windows, under any session changes |
| `PinRaces.RenameInWindowIsReverted` | backend/frontend_api_research.go:793-815 | a run in which the save of a pin call undoes a rename in its window |
| `ResearchPins.FrontendAPI.SetResearchPinned` | backend/frontend_api_research.go:767-821 | the new row for every outcome: unknown project, nothing to change, failed save, success; only the research list ever changes, by that path |
| `ResearchPins.FrontendAPI.SetHypothesisPinned` | backend/frontend_api_research.go:830-897 | the same for a card, whose file must exist only for pinning; an emptied list loses its key |
| `ResearchPins.FrontendAPI.DeleteResearchProject` | backend/frontend_api_research.go:681-760 | success leaves no pin under the directory; a failed save leaves the directory gone and its pins behind |
| `ResearchPins.FrontendAPI.SetPaperPinned` | backend/frontend_api_papers.go:175-253 | the new row for pinning, which needs the card, and unpinning, which needs nothing |
| `PinLists.TogglePinnedPath` | backend/frontend_api_research.go:917-939 | appends an absent path or drops every occurrence, and reports a change exactly when the state was not the requested one |
| `PinLists.ToggledMeans` | backend/frontend_api_research.go:917-939 | after a toggle exactly that path has the requested state; toggling again is a no-op |
| `PinLists.RemovePinnedUnderDir` | backend/frontend_api_research.go:945-975 | keeps exactly the pins not under the directory, in any order of the map, and reports a change exactly when one was |
| `PinLists.RemovedUnderMeans` | backend/frontend_api_research.go:945-975 | what stays and what goes, for every pin and every hypothesis id, and no id is left without a card |
| `PinLists.RemovePaperPin` | backend/frontend_api_papers.go:260-286 | drops exactly the pins that clean to one of the paper's names |
| `PinLists.CandidatesMean` | backend/frontend_api_papers.go:260-286 | the names a pin of a paper may be stored under are exactly the key, the card path of the key's slug, and those of the record's three names, each cleaned |
| `PinLists.UnpinReachesThePin` | backend/frontend_api_papers.go:260-286 | unpinning reaches the stored pin while the paper resolves, and by slug once it does not; no other pin goes |
| `AutoFetch.AttemptsAreRateLimited` | backend/frontend_api_git_autofetch.go:77-85 | whatever mix of triggers arrives, no window of length W holds more than W/60s + 1 attempts |
| `AutoFetch.BoundIsReached` | backend/frontend_api_git_autofetch.go:77-85 | triggers on the minute reach that bound, so it cannot be lowered |
| `AutoFetch.AutoFetchLoop` | backend/frontend_api_git_autofetch.go:301-341 | a tick fetches exactly when it reads the same positive period as the reading before, and the ticker always runs at the last reading's cadence |
| `AutoFetch.SettledTicker` | backend/frontend_api_git_autofetch.go:301-341 | once the period settles at a positive value at most one further tick does not fetch; settled at zero or below none does |
| `AutoFetch.FrontendAPI.PassMinInterval` | backend/frontend_api_git_autofetch.go:77-85 | stamps exactly the triggers that come a minute or more after the last stamp |
| `AutoFetch.FrontendAPI.AutoFetchOnce` | backend/frontend_api_git_autofetch.go:57-110 | announces exactly a completed fetch; the stamp is taken whatever becomes of the attempt |
| `GitCaches.EvictOldest` | backend/frontend_api_gitcache.go:61-77 | keeps exactly as many entries as the cap allows, none of which expires before one that was dropped |
| `GitCaches.SortedByExpiry` | backend/frontend_api_gitcache.go:65-73 | every key once, by expiry |
| `GitCaches.HitsAreYoungerThanTheTTL` | backend/frontend_api_gitcache.go:118-149 | what a reader gets came from a run that started less than one TTL before it looked at the clock |
| `GitCaches.StoredAfterEveryInvalidation` | backend/frontend_api_gitcache.go:194-210 | it was stored after every invalidation of its key so far, though its run may have begun before the latest |
| `GitCaches.InvalidationsTakeEffect` | backend/frontend_api_gitcache.go:194-210 | an invalidation takes its key's entry alone, one of the whole cache every entry |
| `GitCaches.OvertakenRunIsServed` | backend/frontend_api_gitcache.go:136-149 | a run overtaken by an invalidation stores all the same, and the next reader hits it |
| `GitCaches.SizeIsBounded` | backend/frontend_api_gitcache.go:118-185 | with at most K misses in flight a cache never holds more than 100 + K entries |
| `GitCaches.GitCache.Cached` | backend/frontend_api_gitcache.go:118-149 | a live entry is returned untouched; a miss trims to the cap and caches a result but never an error |
| `GitCaches.GitCache.Invalidate` | backend/frontend_api_gitcache.go:194-210 | no spelling of the repository has a live entry afterwards |
| `GitCaches.HasIgnoreRuleChange` | backend/frontend_api_gitcache.go:50-57 | true exactly when a changed path is an ignore-rule file |
| `GitCaches.InvalidateOnWatcher` | backend/frontend_api_gitcache.go:215-223 | any change drops the status, only a rule change the ignored paths |
| `ModelOverrides.ReadAfterSave` | backend/frontend_api_config.go:2149-2243 | reading after an accepted save gives the requested values, unset ones as the default, with the timeout as it was and no stored field equal to its default |
| `ModelOverrides.EntryVanishesExactly` | backend/frontend_api_config.go:2224-2243 | the entry goes exactly when all values are the built-in ones and no timeout is set |
| `ModelOverrides.SavingWhatWasRead` | backend/frontend_api_config.go:2084-2140 | saving what was read keeps every value and makes the entry canonical |
| `ModelOverrides.CanonicalIsUnique` | backend/frontend_api_config.go:2190-2243 | canonical entries that read alike are equal |
| `ModelOverrides.FrontendAPI.GetModelConfig` | backend/frontend_api_config.go:2084-2140 | the effective values, the built-in ones, and whether there is an entry |
| `ModelOverrides.FrontendAPI.Validate` | backend/frontend_api_config.go:2157-2188 | accepts exactly positive limits, a window within 2^24 and known or empty names |
| `ModelOverrides.FrontendAPI.SetModelConfig` | backend/frontend_api_config.go:2149-2261 | the model reads as requested, also when the write fails and is reported; other models and the timeout stay, a refusal changes nothing |
| `TuningPatch.ApplyEmbeddedTuningRequest` | backend/frontend_api_embedded_tuning.go:69-208 | refuses exactly an unknown reset key or a knob both reset and set, naming it; else every knob is unset, as requested or as stored, and the file-only settings stay |
| `TuningPatch.PatchIsDetermined` | backend/frontend_api_embedded_tuning.go:69-79 | the order, repetition and spacing of the reset list and the order of the map do not matter |
| `TuningPatch.PatchIsIdempotent` | backend/frontend_api_embedded_tuning.go:69-208 | applying a request again changes nothing |
| `TuningPatch.PatchedFieldByField` | backend/frontend_api_embedded_tuning.go:69-208 | field by field: each key, whatever space surrounds it, clears its own field and no other, and each field takes its own wish or stays |
| `TuningPatch.KnownExactly` | backend/frontend_api_embedded_tuning.go:25-81 | the legal keys are the fourteen spellings |
| `TuningPatch.EverySectionIsReachable` | backend/frontend_api_embedded_tuning.go:69-208 | from any section one accepted request leads to any other with trimmed device names and the same file-only settings |
| `TuningPatch.PatchesReachNoOthers` | backend/frontend_api_embedded_tuning.go:189-203 | and to no others |
| `TuningPatch.ResetKnobs` | backend/frontend_api_embedded_tuning.go:70-81 | the knobs the reset list names after trimming, or its first unknown key |
| `TuningPatch.Contradictions` | backend/frontend_api_embedded_tuning.go:101-112 | exactly the knobs both reset and set |
| `TuningPatch.ApplyResets` | backend/frontend_api_embedded_tuning.go:114-147 | unsets exactly the reset knobs, in any order of the map |
| `TuningPatch.FrontendAPI.SetEmbeddedLLMTuning` | backend/frontend_api_embedded_tuning.go:303-374 | writes only a valid patch that moves something; every refusal and failed save leaves the section as it was |
| `HunkParser.ParseHunkInfos` | backend/frontend_api_git.go:2257-2341 | one hunk per valid header line, each block running to the next line that begins with @@ |
| `HunkParser.HunksTileExactlyWhenAllMarkedLinesAreHeaders` | backend/frontend_api_git.go:2262-2292 | the blocks make up the diff from its first header to its end exactly when every line from there on that begins with @@ is a header |
| `HunkParser.DiffFromFirstHeader` | backend/frontend_api_git.go:2262-2269 | and the text before the first header makes up the rest of the diff |
| `HunkParser.ParsedHunksReadThemselves` | backend/frontend_api_git.go:2293-2338 | each hunk's numbers are its own first line's, and its first change lies below both starts by the number of context lines above it, 0 without a change |
| `HunkParser.FindChange` | backend/frontend_api_git.go:2294-2326 | the body walk that tracks both files finds that offset |
| `HunkParser.OffsetCountsTheContext` | backend/frontend_api_git.go:2294-2326 | with context lines alone above the first change the offset is their number, without a change 0 |
| `HunkParser.OtherLinesDoNotCount` | backend/frontend_api_git.go:2294-2326 | empty lines and the note on a missing newline make no difference to it |
| `HunkParser.HeaderReadsBack` | backend/frontend_api_git.go:2251-2282 | every header git writes, with or without counts of one, is read back exactly |
| `HunkParser.HeaderExactly` | backend/frontend_api_git.go:2251-2282 | a line is a header exactly when it has the layout at its very start, with digits of any length; a missing count is one, a number out of range the largest |
| `Commands.SplitFrontmatter` | backend/frontend_api_commands.go:213-230 | the loop splits as the line-by-line definition does |
| `Commands.DelimitsExactly` | backend/frontend_api_commands.go:213-230 | a delimiter line is three hyphens with any carriage returns behind them |
| `Commands.SplitsExactlyLaidOutFiles` | backend/frontend_api_commands.go:213-243 | there is frontmatter exactly when the file is laid out as one, the parts are the layout's with carriage returns trimmed, and anything else comes back whole |
| `Commands.RenderedBlockSplits` | backend/frontend_api_commands.go:213-230 | a rendered block is split into its joined lines and its body |
| `Commands.LaidOutFileSplits` | backend/frontend_api_commands.go:213-243 | the same for any line endings and a closing delimiter at the end of the file |
| `Commands.ScanCommands` | backend/frontend_api_commands.go:132-172 | the commands are the first offers of each name over the project directory and then the base directories |
| `Commands.OfferMeans` | backend/frontend_api_commands.go:132-172 | a file defines a command exactly when it is readable, no directory, and named as the command with .md behind it; the template is the file's |
| `Commands.CommandsFollowTheFiles` | backend/frontend_api_commands.go:132-172 | commands stand in the order of the files they come from |
| `Commands.DirectoriesInOrder` | backend/frontend_api_commands.go:132-145 | and those in the order of their directories |
| `Commands.FirstOfferWins` | backend/frontend_api_commands.go:147-170 | a name's command is that of the first readable file with it |
| `Commands.OnlyOffersAppear` | backend/frontend_api_commands.go:147-170 | every command comes from a file, and no name appears twice |
| `Commands.ValidCommandName` | backend/frontend_api_commands.go:249-261 | exactly the non-empty names of ASCII letters, digits, underscore and hyphen |
| `CappedBuffer.LimitedBuffer.Write` | backend/frontend_api_git_commit.go:176-193 | reports the full length and keeps the first 64 KiB of everything written so far |
| `CappedBuffer.LimitedBuffer.String` | backend/frontend_api_git_commit.go:198-206 | the trimmed first 64 KiB, with the marker exactly when there was more |
| `CappedBuffer.CopyOutput` | backend/frontend_api_git_commit.go:168-206 | for every way of cutting the output into writes the report depends only on their concatenation |
| `CappedBuffer.SplittingAChunkIsInvisible` | backend/frontend_api_git_commit.go:176-193 | cutting one write in two changes nothing |
| `CappedBuffer.CapsAgreeExactly` | backend/frontend_api_git.go:383-401 | the streaming cap, which cuts before it trims, agrees with the whole-output cap exactly within the limit and on longer outputs whose first 64 KiB neither begin nor end with white space, but for texts that trimming brings within the limit |

## Left out

- Git subprocesses, file watchers, SQLite, HTTP, the keychain and Wails events: inputs of the model, or left out; of the events only project:switched, config:updated and git:status_changed are kept, where a property names them.
- Deleting a project, and enabling or disabling the vector index with its desktop restart: the factory's readiness is taken as monotone.
- The body of the vector registry, the session manager, the model catalog (`llm`) and the embedded installer: parameters or free choices.
- `saveMu`, which orders whole save sequences: the proxy and refresh runs allow more interleavings than it does, except that no correction is persisted during a proxy save.
- A nil builder or emitter, test seams, log text and error wording; with a nil builder a refresh rebuilds nothing.
- The empty-overrides return of the push into the live sessions: a correction leaves an override, so the push is never empty after one.
- ProjectSwitch.WatcherFollowsTrackedTree: holds of the switch's own steps; re-scoping the watcher and the tracked roots on a session change (WatchDirectory) is not modelled, and neither is a watcher that follows a deeper directory.
- The lazily built mutex map of the research roots: a mutex is taken to exist for every root.
- ResearchPins.FrontendAPI.DeleteResearchProject: the two resolutions of the directory within one deletion are one, and the index.md edit is left out.
- Panics while the install engine is being resolved, which no deferred function of the install catches.
- HunkParser.ParsedHunksReadThemselves: line counters are unbounded; the overflow of a 64-bit counter that starts near its limit is not modelled.
- CappedBuffer.CapsAgreeExactly: one char is one byte, so multi-byte white space at an end and the joining of stdout and stderr are not covered.
- AutoFetch.AutoFetchLoop: takes the periods as read; the default for a missing or unparsable setting is applied before.
- AutoFetch.SettledTicker: counts readings of the period, not wall-clock time; a ticker that drops ticks reads less often.
- The event-driven fetch triggers' `remoteOpMu` beyond its one busy answer.
- The sequence of chatgpt_auth:state events, sign-in and sign-out.
- ProxyPush.FrontendAPI.UpdateProxySettings: the file write, whose failure is only logged, and the set_global_env setting, which the call does not touch.
- ModelOverrides.FrontendAPI.Validate: the family and protocol names come from the llm package, which is not part of this model.
- TuningPatch.FrontendAPI.SetEmbeddedLLMTuning: the load-time checks are one predicate, and pointer values stand for themselves, so not-a-number is not modelled.
- Parsing a command file's YAML and trimming its template.
- Case-by-case mappers, validators, DTO conversions and MCP merging: easy members.
