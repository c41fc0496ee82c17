# OneProxy, verified

A Dafny model of the four stateful components of OneProxy, with proofs of what they promise over
every run:

* **the rotating log writer** - a byte stream in dated files and numbered volumes that survives any
  failing file operation and any restart;
* **the subscription merge** - pairing a feed with the configured nodes, keeping, adding and removing
  nodes, allocating names and ports, and generating the core's configuration from the result;
* **the session protocol** of the library - starts, stops, restarts, updates, imports and watchers
  that interleave under one lock which is dropped during downloads;
* **the process lifecycle** - the manager and its monitor goroutine, the supervisor, the health checker
  and the splitter of the core's output.

`dafny verify dfyconfig.toml` checks everything.

## How it is laid out

| files | what they hold |
|---|---|
| `Text` | the string operations the sources share |
| `Volumes`, `LogHistory`, `LogNames`, `LogWriter` | the directory of one date as a value and what one file operation does to it; runs; names and dates; the writer as a class over a directory whose every operation may fail |
| `ProxyConfig`, `SubscriptionMatch`, `SubscriptionMerge` | the configuration and its validator; the five matching passes; the merge as a function |
| `FirstCome` | entries that are served in order, each given the one node it wants that nobody before it wants: which orders go through, and which agree |
| `SubscriptionOrder`, `MergeOrder`, `MergeCompetition`, `MergeValidity`, `MergeConvergence`, `MergePreservation` | what is proved about the merge: passes in closed form, the order of the feed, success, fixed points, what stays |
| `MatchFields`, `MergeReport` | what each pass goes by, and what a merge makes of every node and entry and reports, in the fields of nodes and entries |
| `MergeWitnesses` | configurations and feeds on which the merge and the generator do what one would not expect |
| `ManualNode`, `MergeMethods` | importing one node; the merges as programmed, with their loops and tables, proved equal to the functions |
| `SingBox`, `SkipRestart`, `Traffic` | generating the core's configuration; when skipping a restart is sound; which references of the result resolve; where it sends what arrives at a port |
| `Session`, `SessionRuns`, `SessionTheorems`, `SessionStarts`, `SessionWatchers`, `SessionOrphans`, `CoreAgreement`, `SessionLibrary` | the library's globals and what one hold of the lock does; runs of any number of threads; theorems about them; what starts read, save, publish and launch; that a core that is up is watched; when a run leaves a core without a manager; whether the running core has what is in force; the exported operations and the tray's worker as classes |
| `Supervision`, `Lifecycle`, `LifecycleRetries`, `LifecycleWitnesses`, `ManagerRestart`, `ProcessManager` | the supervisor; manager and monitor as a step system with an inductive invariant; when it tries again and when it gives up; concrete runs of it; what a restart is to the session; the manager as a class |
| `ProcessOutput`, `Health` | the output splitter; the health checker |

Code that changes state in place is modelled by classes and loops whose contracts equate the new state
with a specification function; the theorems are about those functions and about runs of them. A step of
a concurrent component is one section under its mutex, one channel operation or one event of the
environment. The session model knows a manager only as alive or not, and of the core's file and the
running core what they were made from; what its calls promise is the subject of `Lifecycle`, and how a
restart ends for the session that of `ManagerRestart`. What the environment decides - a failing file
operation, a crash, a download's result, the order in which threads get a lock - is a parameter or a
nondeterministic choice, so every theorem holds for all of it.

SHA-256, IP parsing and the pattern of confirmed domains are parameters (`Oracle`); case folding and
white space are ASCII; a missing and an empty extra table are equal.

## Findings

Where the code does not do what one would expect of it, the code is kept as it is, an input is named and
the exact condition is proved.

* *An orphaned core.*  `Session` restarts the core inside an update or import.  If the core crashes
  during that hold and the watcher receives the crash report before the restarted core is up, the watcher
  then drops the manager of a running core, and a later Stop that reports success leaves that core alive
  (`CrashDuringRestartOrphans`, reached from the initial state by `ImportAfterStart`).  `NoOrphanIff` and
  `OrphanArisesIff`: this happens exactly when a watcher took its report inside such a restart, no later
  restart brought that core down, and the watcher acts while its manager and checker are still current.
  A run in which no restart hands its report to a watcher leaves no orphan (`NoTakenBounceNoOrphan`).
  A restart does hand it over exactly when the monitor gives the old lifecycle up between the two
  sections of Restart, after the ready check and before the stop, and the watcher is faster than the
  new start, which drains the report (`TakenIff`); `RestartHandsOver` is such a restart.
* *A start that succeeds with a dead child.*  When the startup window closes the monitor looks only at
  whether Wait has returned.  `StartNilIff`: Start returns nil exactly when it had not.
  `StartSucceedsWithDeadChild` is a run from the initial state in which the child died and was reaped
  inside the window, Wait was still pending, Start returns nil and IsRunning holds.  If Wait has returned
  whenever a window closes on a dead child, then every child taken to be up did outlive its window
  (`PromptMeansHonest`); whenever it has not, the dead child can be taken to be up (`LateWaitMisleads`).
* *Import and config.json.*  The error of writing the old configuration back is ignored, so memory and
  file can differ.  `ImportDivergesIff` says when, `ImportDiverges` gives the case.
* *A core that is left behind.*  The core is given what is in force at every moment of every run, except
  after a change that falls behind: one that goes through while the core is up but not ready, or one that
  is taken back without the core's file being written again, or without the core being restarted again
  when the new configuration had already been launched (`AgreesAlwaysIff`).  `CoreLeftBehind` is such a
  run from the first start: the restart gives up waiting for the old core, and the way back cannot write
  the file, which then names a node that is not in force and that the next launch would use.
* *Checks that never fire.*  After queuing, an update compares the URL it was asked for with the one of
  the configuration it remembers (cmd/oneproxy-dll/subscription.go:110-112); they always agree
  (`DequeueIff`).  An import that has waited asks whether a startup is in flight; then what it remembers is
  no longer in force anyway (`ImportOutsideStartup`).
* *Updates and restarts.*  Updates are saved in the data directory, Restart reads the path the session
  was started from.  `UpdateSurvivesRestartIff`: a committed update is in force after a restart exactly
  when the two paths coincide, or the other file happens to hold the same configuration.
* *A stop that reports a crash.*  The comment at internal/proxy/manager.go:179-180 says that an
  intentional stop publishes no terminal error.  `StopPublishesIff`: it does exactly when the monitor had
  decided to fail before the stop came; `StopPublishesACrash` is such a stop in a run from the initial
  state.
* *Dangling and colliding tags.*  `ResolvesIff`: the generated configuration mentions an undefined
  outbound unless the route mode is "direct" or there is a unified port whose selector is called "proxy";
  `SelectorDangles` is a valid configuration for which it does.  `TagsDistinctIff`: two outbounds share a
  tag unless the enabled names stay distinct after cleaning and the selector takes neither a reserved tag
  nor a node's; `TagsCollide` has the valid nodes "a" and "a!".
* *Feed order.*  Every pass gives a free node to the first entry of the feed that wants it, and fails
  exactly when an entry is the first to want two (`PassIs`).  Only in the second pass can two entries
  want one node.  `OrderFreeIff`: its result depends on the order exactly when two entries contest a node
  and no group of entries jams, that is, wants so many nodes of its own that every order fails.
  `SomeOrderPasses` says when some order passes and when some order fails; if the hash does not collide
  these cannot both happen (`StuckOnEveryOrder`).  `OrderMatters` names two servers and a valid
  configuration for which the two orders both merge, into different configurations.

## Model

| member | source | states |
|---|---|---|
| LogWriter.Writer.Write | internal/logger/writer.go:119-150 | whatever fails, the bytes reported are exactly those persisted and the date's volumes make `Progress`; without failures the outcome is the ideal one. On a new date or when a cleanup is due, without failures exactly the expired names are gone and the next cleanup is at midnight, and they are gone whenever no earlier retry is set; otherwise no other name changes. A failure is repeated unchanged for one second on the same date, and is that of the write that failed |
| LogWriter.Writer.WriteLoop | internal/logger/writer.go:154-192 | the loop terminates, an error comes with the exact persisted count, and without failures it stops early only at what no retry can pass |
| LogWriter.Writer.Rotate | internal/logger/writer.go:196-217 | a rotation gives up a volume only when none is vacant, refuses an unbounded or foreign volume before changing anything, and every partial outcome still leads to the same ideal |
| LogWriter.Writer.Shift | internal/logger/writer.go:218-223 | renames stopped anywhere leave one vacancy that a retry continues from |
| LogWriter.Writer.Open | internal/logger/writer.go:74-101 | a foreign object is refused and left alone; otherwise at most an empty active file appears |
| LogWriter.Writer.Cleanup | internal/logger/writer.go:253-284 | without failures exactly the regular expired names of this stream go, otherwise some of them; never the date being written; the next attempt is at midnight, or within the hour after a failure |
| LogWriter.NewWriter | internal/logger/writer.go:47-64 | a restart sweeps and reopens: the only change to the date being written is an empty active file; without failures exactly the expired names are gone, the next cleanup is at midnight, and it fails exactly on a foreign active file |
| LogWriter.ExpiredIffBefore | internal/logger/writer.go:266-270 | the comparison of date strings decides exactly the names more than four calendar days old |
| LogWriter.SweptKeepsToday | internal/logger/writer.go:253-284 | no sweep touches the current path or its volumes |
| LogNames.DatePathIs | internal/logger/writer.go:36-42 | the date goes between the stem and the extension after the last dot |
| LogNames.OwnedDate | internal/logger/writer.go:227-251 | a name is owned exactly when it is a date path or configured volume of this stream, and the date found is the one it was made from |
| LogNames.OwnedUnique | internal/logger/writer.go:227-251 | a name belongs to one date and one slot only |
| LogNames.ParseFormat | internal/logger/writer.go:38-41 | parsing inverts the date format for years 1 to 9999 |
| LogNames.DateStringOrder | internal/logger/writer.go:269 | the order of date strings is the order of calendar days |
| LogNames.FourDaysBeforeNumber | internal/logger/writer.go:266 | the cutoff is four calendar days back, across months, years and leap days |
| LogNames.SlotInjective | internal/logger/writer.go:194 | volumes of one date have distinct names |
| LogHistory.RetainedSuffix | internal/logger/writer.go:162-224 | under every pattern of failures and restarts, volumes then active file are a suffix of the initial contents followed by all persisted bytes, and no file outgrows the limit |
| LogHistory.OneVolumePerRotation | internal/logger/writer.go:196-224 | over a whole run volumes given up exceed completed rotations by at most the one in progress |
| LogHistory.FaultTransparency | internal/logger/writer.go:154-224 | a write interrupted anywhere, across restarts, and resumed with exactly the bytes not yet persisted ends where one uninterrupted write ends |
| LogHistory.ClosedForm | internal/logger/writer.go:152-192 | from an empty date the active file is the last block of the stream and volume i the i-th block before it |
| LogHistory.LayoutBlocks | internal/logger/writer.go:152-192 | the blocks of the closed form in numbers: with f = (n - 1) / limit the active file starts at byte f * limit, volume i holds bytes (f - i) * limit to (f - i + 1) * limit, older volumes are vacant |
| LogHistory.ChunkIndependence | internal/logger/writer.go:152-192 | the same however the bytes are split into calls |
| LogHistory.LayoutExtends | internal/logger/writer.go:152-192 | continuing from a closed form gives the closed form of the longer stream |
| LogHistory.IdealSplit | internal/logger/writer.go:154-192 | writing a then b is writing a + b, from any directory |
| ProxyConfig.Validate | internal/config/config.go:142-217 | the validator with its port table accepts exactly the valid configurations |
| ProxyConfig.ValidateUniqueNames | internal/config/subscription_merge.go:258-268 | accepts exactly the node lists with distinct normalized names |
| SubscriptionMatch.PrepareIs | internal/config/subscription_merge.go:276-296 | preparing fails exactly when two entries share an identity with different contents, and otherwise keeps exactly the entries of the feed, each key once |
| SubscriptionMatch.NoBlockingPair | internal/config/subscription_merge.go:53-82 | the matching is a partial injection, justified pair by pair, and no entry and node satisfy the rule of a pass while both end up unmatched or matched only later |
| SubscriptionMatch.StageKeeps | internal/config/subscription_merge.go:298-346 | after every pass the pairing is injective and every pair was allowed by the rule of a pass so far |
| MatchFields.EntryFields | internal/config/subscription_merge.go:276-296 | an entry equals one of the feed's in what it carries, and is marked as tracked under the hash of type, server, port and name |
| MatchFields.KeyPass | internal/config/subscription_merge.go:316-319 | in the first pass an entry gets node i exactly when that is tracked under the entry's key |
| MatchFields.MovePass | internal/config/subscription_merge.go:320-331 | in the second exactly when both are vless, the node is tracked at an address, the entry is at a confirmed domain, the node has the key that the entry would have at that address, and no earlier free entry is in that position |
| MatchFields.ExactPass | internal/config/subscription_merge.go:332-335 | in the third exactly when the node is free, tracked or admitted without a source, not the placeholder, and has the entry's type, server, port and name |
| MatchFields.EndpointPass | internal/config/subscription_merge.go:55-70 | in the fourth by type, server and port alone, whatever the names, for an entry that is the only one there |
| MatchFields.NamePass | internal/config/subscription_merge.go:340-344 | in the last by type and name alone, for an entry that is the only one of that name, which is not blank |
| MatchFields.TogetherPaired | internal/config/subscription_merge.go:53-82 | a node and an entry that share an address with nobody else are paired, whatever their names and keys, as long as nobody else has either's key and no move between an address and a confirmed domain is in question |
| MatchFields.RenamedKeepsNode | internal/config/subscription_merge.go:53-110 | so in a merge such an entry keeps its node although it was renamed: name, local port and enabled flag stay, the rest is the entry's; before the first merge under a URL also for nodes without a source |
| Text.NormalizedAlike | internal/config/subscription_merge.go:354-360 | case does not matter in servers and names, nor do spaces around a name |
| SubscriptionOrder.PassIs | internal/config/subscription_merge.go:53-82 | for every feed in every order: a pass fails exactly when some entry is the first of the feed to want two free nodes, and otherwise gives every free node to the first entry that wants it and changes nothing else |
| SubscriptionOrder.MatchSucceedsIff | internal/config/subscription_merge.go:53-82 | the matching succeeds exactly when in no pass an entry is the first of the feed to want two free nodes |
| SubscriptionOrder.NoCompetitionInside | internal/config/subscription_merge.go:315-332 | entries whose confirmed domains are distinct by type, port and name never compete for a node |
| MergeOrder.UncontestedFeedOrder | internal/config/subscription_merge.go:26-183 | permuting a feed or repeating its entries gives the same merged configuration and report, or the same failure, when no two entries want the same free node in the second pass |
| MergeOrder.FeedOrder | internal/config/subscription_merge.go:26-183 | in particular when the confirmed domains of the feed are distinct by type, port and name |
| MergeCompetition.FirstEntryWins | internal/config/subscription_merge.go:56-79 | whatever the others want, the entry at the front of the feed gets the free node it wants, if the second pass succeeds |
| MergeCompetition.OrderFreeIff | internal/config/subscription_merge.go:53-82 | the pairing after the second pass, or its failure, is the same for every order of the entries exactly when no two of them want the same free node or some group of them jams |
| MergeCompetition.SomeOrderPasses | internal/config/subscription_merge.go:53-82 | some order of the entries passes the second pass exactly when no group jams, each of its entries wanting two nodes that nobody outside wants; some order fails it exactly when an entry wants two free nodes |
| MergeCompetition.StuckOnEveryOrder | internal/config/subscription_merge.go:321-332 | unless the hash collides the second pass succeeds on every order or on none, because entries want the same nodes or none in common |
| FirstCome.OrdersAgreeIff | internal/config/subscription_merge.go:53-82 | all orders of entries served in turn agree exactly when no two want one node or none of the orders goes through |
| FirstCome.SomeOrderServesIff | internal/config/subscription_merge.go:53-82 | some order goes through exactly when no group of entries jams |
| MergeCompetition.ContestedFeedsDiffer | internal/config/subscription_merge.go:26-183 | two orders of a feed, each starting with one of two entries that contest a node, merge into different configurations |
| MergeWitnesses.OrderMatters | internal/config/subscription_merge.go:321-332 | a valid configuration and two entries on confirmed domains for which both orders merge, into different configurations, whatever the hash as long as it separates the identities involved |
| MergeConvergence.Convergence | internal/config/subscription_merge.go:53-182 | merging the same feed again succeeds, changes nothing if nothing was missing, and the third merge is a fixed point |
| MergeConvergence.MergeSettles | internal/config/subscription_merge.go:84-182 | after a merge every entry has exactly one node, equal to it in all fields but name, port and enabled flag, and every other tracked node has been missed once |
| MergeConvergence.SettledMerge | internal/config/subscription_merge.go:84-182 | merging a feed into nodes settled for it only removes the stale nodes |
| MergeValidity.ValidByConstruction | internal/config/subscription_merge.go:129-182 | from a valid configuration and usable entries a merge fails only by identity conflict, ambiguous match or port exhaustion, never in the final checks |
| MergeValidity.ExhaustedIff | internal/config/subscription_merge.go:160-163 | allocation fails exactly when there are more new nodes than free ports |
| MergeValidity.MergeSucceedsIff | internal/config/subscription_merge.go:26-183 | a merge of usable entries into a valid configuration succeeds exactly when no two entries clash, in no pass an entry is the first of the feed to want two free nodes, and there are free ports for all new nodes; an ambiguous entry makes it fail as ambiguous |
| MergeValidity.FirstMergeSucceeds | internal/config/subscription_merge.go:26-183 | in particular the first feed of one entry always merges into a configuration of one manual node |
| MergeValidity.AllocateIs | internal/config/subscription_merge.go:150-169 | new nodes differ from their entries only in name, port and enabled flag; names and ports are fresh and distinct |
| MergeReport.NewNodeIs | internal/config/subscription_merge.go:138-169 | every entry without a node gets one behind the nodes that stay, in the order of keys: equal to the entry in all fields but three, enabled, under the first of "name", "name (2)", ... that is free and on the lowest free port from 10801 on, as things stand at that moment; a blank name is replaced by the server |
| MergeReport.NodeFate | internal/config/subscription_merge.go:84-127 | a node goes exactly if it is the shipped placeholder or a tracked one that no entry claims and that the URL has left behind or the merge before has missed; otherwise it stays, as its entry says, missed once more, or unchanged; under a new URL no entry claims any |
| MergeReport.MergeStamps | internal/config/subscription_merge.go:171-180 | the rest of the configuration changes only in URL, source key and migration flag; a change is reported exactly when something differs |
| MergeReport.ReportIs | internal/config/subscription_merge.go:84-169 | added, updated, missing and removed count exactly the entries and nodes concerned, the lists add up, and a runtime change is reported exactly for additions, for the placeholder, for a node that was missed twice, and for one whose entry differs in what the core sees |
| SubscriptionMerge.FreshIndex | internal/config/subscription_merge.go:156-158 | the suffix search takes the first free name and ends within one try more than there are names |
| SubscriptionMerge.FreePort | internal/config/subscription_merge.go:362-369 | the lowest free port, or none exactly when all are used |
| MergePreservation.ManualPreserved | internal/config/subscription_merge.go:84-127 | manual nodes keep their exact value and relative order, also under a new URL |
| MergePreservation.ManualPreservedByRuns | internal/config/subscription_merge.go:84-127 | the same over any sequence of merges |
| MergePreservation.MatchedKeepsIdentity | internal/config/subscription_merge.go:98-110 | a matched node keeps name, local port and enabled flag and equals its entry in each of the other seventeen fields, credentials included |
| MergePreservation.IdentityInRuns | internal/config/subscription_merge.go:98-127 | through any sequence of merges a node that stays keeps name, local port and enabled flag, and after a match equals its entry in all other fields |
| MergePreservation.TwoMisses | internal/config/subscription_merge.go:113-125 | under one URL a tracked node disappears only after two consecutive merges left it unmatched |
| MergePreservation.TwoMissesInRuns | internal/config/subscription_merge.go:113-125 | the same at any place of any sequence of merges under one URL |
| MergeMethods.PrepareSubscriptionProxies | internal/config/subscription_merge.go:276-296 | the loop with its key table computes the specification |
| MergeMethods.FindSubscriptionMatch | internal/config/subscription_merge.go:298-346 | the search finds the unique candidate, nobody, or reports several |
| MergeMethods.RunPass | internal/config/subscription_merge.go:55-81 | one pass with its index tables and counting loop computes the specification |
| MergeMethods.MergeSubscription | internal/config/subscription_merge.go:26-183 | the whole merge as programmed equals the specification the theorems are about |
| MergeMethods.MergeManualProxy | internal/config/subscription_merge.go:203-256 | the import as programmed equals its specification |
| MergeMethods.NextAvailablePort | internal/config/subscription_merge.go:362-369 | the loop finds the lowest free port |
| MergeMethods.FreshName | internal/config/subscription_merge.go:151-158 | the suffix loop terminates with the first free name |
| ManualNode.ManualTouchesOne | internal/config/subscription_merge.go:203-256 | an import changes the first untracked node of its server and port in place, keeping its name and local port, or adds one at the end under its own name or its server's on the lowest free port; every field of the placed node is given, and nothing else changes |
| ManualNode.ManualIdempotent | internal/config/subscription_merge.go:203-256 | importing the same node again changes nothing |
| ManualNode.ManualSucceedsIff | internal/config/subscription_merge.go:203-256 | it succeeds exactly if there is such a node, or some port from 10801 to 65535 is free and nobody has the name |
| SingBox.Generate | internal/config/singbox.go:193-213 | the generator as programmed computes the configuration the theorems are about |
| SingBox.GenerateOutbounds | internal/config/singbox.go:261-324 | one outbound per enabled node of a supported type, then the unified ones and the direct one |
| SingBox.GenerateRoute | internal/config/singbox.go:326-381 | port bindings first, then DNS, then the rules of the route mode |
| SingBox.SanitizeTag | internal/config/singbox.go:384-395 | the cleaning loop keeps letters, digits, dashes and underscores and turns spaces into dashes |
| SingBox.SanitizedDrops | internal/config/singbox.go:384-395 | a dropped character leaves no trace, so distinct names may share a tag |
| SingBox.SanitizedJoin | internal/config/singbox.go:384-395 | cleaning goes character by character |
| Traffic.PortReachesNode | internal/config/singbox.go:226-345 | in a valid configuration every enabled node with a local port is reached through it: something listens there, the first rule for that inbound names the node's tag, and an outbound of that tag carries the node's server, port, credentials and TLS fields - the only one, if tags are distinct |
| Traffic.UnifiedReaches | internal/config/singbox.go:297-381 | what arrives at the unified port goes to the selector by the last rule, and the selector and the latency test offer every enabled node in order; in direct mode no rule speaks of it |
| Traffic.EnabledAt | internal/config/singbox.go:261-264 | the enabled nodes are taken in the order of the configuration |
| Traffic.SiteRulesPlace | internal/config/singbox.go:342-368 | in rule mode DNS, then the sites, then the country lists, and the unified port last |
| Traffic.FixedParts | internal/config/singbox.go:193-223 | log level, DNS, controller, rule sets and the direct outbound |
| SkipRestart.SkipRestartSound | internal/config/subscription_merge.go:84-169 | if a merge reports no runtime change, nodes agree one by one in all the core sees and the generated configuration is identical |
| SkipRestart.NewUrlAdds | internal/config/subscription_merge.go:113-117 | a merge under a new URL always adds a node, so removing nodes without setting the flag is never the only change |
| SkipRestart.ResolvesIff | internal/config/singbox.go:261-381 | every tag the configuration mentions is defined, exactly under the stated condition on route mode and unified port |
| MergeWitnesses.SelectorDangles | internal/config/singbox.go:326-381 | a valid configuration whose generated rules mention an undefined outbound |
| SkipRestart.TagsDistinctIff | internal/config/singbox.go:261-324 | no two outbounds share a tag, exactly under the stated condition on names and selector |
| MergeWitnesses.TagsCollide | internal/config/singbox.go:384-395 | a valid configuration with distinct names whose generated outbounds share a tag |
| Session.UpdateBothOrNeither | cmd/oneproxy-dll/subscription.go:117-171 | an update leaves the published configuration and config.json both advanced to the merge of the configuration in force, or both untouched |
| Session.ReloadFailsIff | cmd/oneproxy-dll/main.go:434-462 | a reload fails exactly when the new configuration cannot be written, or the core is ready and its restart fails |
| CoreAgreement.AgreesAlwaysIff | cmd/oneproxy-dll/main.go:434-462 | in every run from the initial state, with starts, stops, restarts, updates, imports and crashes in any order, a core that is up was launched with what the configuration in force amounts to, and its file says so, exactly as long as no change falls behind |
| CoreAgreement.ApplyAgreesIff | cmd/oneproxy-dll/subscription.go:141-160 | after an update that the core must see, applied or taken back, the core agrees with what is in force exactly on the stated answers of the environment |
| CoreAgreement.SaveAndApplyAgreesIff | cmd/oneproxy-dll/main.go:503-518 | the same for an import |
| CoreAgreement.CoreLeftBehind | cmd/oneproxy-dll/main.go:503-518 | a run from the first start in which an import leaves the core's file with a node that is not in force |
| Session.UpdateCommitsIff | cmd/oneproxy-dll/subscription.go:117-171 | it commits exactly when the merge succeeds with a change, the save succeeds and, if the core must see the change, the configuration can be written and a ready core restarts |
| Session.ImportDivergesIff | cmd/oneproxy-dll/main.go:503-518 | memory and file differ after an import exactly when the new file was saved, the reload breaks and the old configuration cannot be written back; the file then holds the new nodes and memory the old ones |
| Session.ImportDiverges | cmd/oneproxy-dll/main.go:512-516 | such an import |
| Session.ImportBothOrNeither | cmd/oneproxy-dll/main.go:503-518 | otherwise an import changes both or neither, or puts the old configuration back |
| SessionRuns.StepKeeps | cmd/oneproxy-dll/main.go:116-337 | the invariant of globals, threads and queue survives every hold of the lock, in any order |
| SessionRuns.StartDisposesFirst | cmd/oneproxy-dll/main.go:116-190 | a start changes nothing while a startup is in flight or the core is ready, and publishes nothing while the old manager is alive |
| SessionRuns.RestartStopsFirst | cmd/oneproxy-dll/main.go:323-337 | a restart whose stop fails leaves manager, core and configuration and starts nothing; one that registers or launches something has ended the old core |
| SessionStarts.FinishBothOrNeither | cmd/oneproxy-dll/main.go:171-260 | the hold after the download: if the startup is still registered, the feed merges and the file can be saved, the merge of what was loaded is saved and published under the requested route mode, and the core is launched exactly if its file, its binary and itself come up; otherwise neither file nor published configuration changes |
| SessionStarts.BeginStartIs | cmd/oneproxy-dll/main.go:116-170 | the first hold, case by case on the globals: refused, stuck on a manager that cannot be stopped, nothing to load, registered for the download of its subscription, or published and launched without one |
| SessionStarts.StartupMergesItsFile | cmd/oneproxy-dll/main.go:160-190 | in every run the file of a registered startup still holds what was loaded, which is also in force, when its download is in; then their merge is saved there and published, or nothing changes |
| SessionStarts.StoppedTicksAreSilent | cmd/oneproxy-dll/subscription.go:70-81 | in every run, from a Stop on and whatever sessions follow, a tick of the updater that ran before it asks for nothing |
| SessionStarts.ImportOutsideStartup | cmd/oneproxy-dll/main.go:492-502 | an import that finds what it remembers in force never does so during a startup |
| SessionStarts.DequeueIff | cmd/oneproxy-dll/subscription.go:98-112 | in every run an update whose turn has come goes on exactly when what it remembers is in force; the check of the URL never stops one |
| SessionTheorems.StopChannelsCloseOnce | cmd/oneproxy-dll/subscription.go:54-63 | in every run a stop channel is closed at most once |
| SessionTheorems.StaleStartsNeverCommit | cmd/oneproxy-dll/main.go:103-190 | an asynchronous start that existed before a Stop changes nothing after it, even if a newer start has registered |
| SessionTheorems.QuietUntilNextStart | cmd/oneproxy-dll/main.go:295-320 | after a successful Stop nothing under way publishes, saves or launches anything until a new start is asked for |
| SessionTheorems.TrayStopDisconnects | trayapp/main.cpp:131-137 | when the tray's stop returns without error and no core is orphaned, its worker gives up at its next hold and nothing is connected |
| SessionWatchers.AlwaysWatched | cmd/oneproxy-dll/main.go:255-285 | in every run from the initial state the current manager, while its core is up, has a watcher together with its checker: the end of a core never goes unnoticed |
| SessionOrphans.OrphanArisesIff | cmd/oneproxy-dll/main.go:263-285 | a step leaves the first core without a manager exactly when it is a watcher acting, while its manager and checker are current, on a report it took inside a restart that nothing has brought down since |
| SessionOrphans.NoOrphanIff | cmd/oneproxy-dll/main.go:263-285 | so a run never leaves such a core behind exactly when no step of it does that |
| SessionOrphans.NoOrphanFromStart | cmd/oneproxy-dll/main.go:263-285 | this and the next for every run from the initial state, whatever files there are |
| SessionOrphans.NoTakenBounceNoOrphan | cmd/oneproxy-dll/main.go:434-462 | in particular not a run in which no restart inside an update or import hands its report to a watcher |
| SessionOrphans.CrashDuringRestartOrphans | cmd/oneproxy-dll/main.go:434-462 | the run in which a crash during a restart orphans the restarted core |
| SessionOrphans.ImportAfterStart | cmd/oneproxy-dll/main.go:482-519 | a start followed by an import reaches the state from which that run goes |
| SessionTheorems.UpdateMergesInForce | cmd/oneproxy-dll/subscription.go:117-127 | every committed update merges the configuration in force at that instant, never during a startup or when nothing is in force |
| SessionTheorems.ImportMergesInForce | cmd/oneproxy-dll/main.go:494-511 | so does every committed import, and one that fails to apply keeps the pointer, the file holding the old configuration or, if that cannot be written back, the new one |
| SessionTheorems.UpdateSurvivesRestartIff | cmd/oneproxy-dll/subscription.go:161-171 | a committed update is in force after a restart exactly when the session was started from the file that updates are saved to, or its own file holds the same configuration |
| SessionTheorems.OutdatedNeverCommits | cmd/oneproxy-dll/subscription.go:106-123 | once the configuration an update or import remembers is no longer in force, it never commits |
| SessionTheorems.StopOutdates | cmd/oneproxy-dll/main.go:295-320 | a successful Stop outdates every update and import under way |
| SessionLibrary.Library.StartProxy | cmd/oneproxy-dll/main.go:116-190 | the first hold of a start refuses while a startup is in flight or the core is ready; otherwise it disposes of the old session before it publishes anything, and either registers one download of a valid configuration with a subscription, or launches one without, under the requested route mode |
| SessionLibrary.Library.StartAtEpoch | cmd/oneproxy-dll/main.go:104-109 | a start dispatched before the last stop is refused and changes nothing |
| SessionLibrary.Library.FinishStart | cmd/oneproxy-dll/main.go:171-260 | the hold after the download: nothing happens unless this startup is still registered; then the merge is both saved to the file loaded and published, or neither, and the core is launched only with the first |
| SessionLibrary.Library.StopProxy | cmd/oneproxy-dll/main.go:295-320 | the epoch grows and the updater ends; then nothing is left, or the manager that cannot be stopped keeps its place with everything else |
| SessionLibrary.Library.Restart | cmd/oneproxy-dll/main.go:323-337 | a stop and a start in one hold: nothing happens without a manager or during a startup, a failed stop leaves core and configuration and starts nothing, and otherwise the old core is gone before anything new is registered |
| SessionLibrary.Library.Watch | cmd/oneproxy-dll/main.go:263-285 | only the watcher of the current manager and checker clears the state |
| SessionLibrary.Library.Reload | cmd/oneproxy-dll/main.go:434-462 | reloading writes the core's file from what is in force, restarts only a ready core, which then reads it, resumes checks exactly with a restarted core and if they are enabled, and fails only when writing the file or the restart does |
| SessionLibrary.Library.FinishUpdate | cmd/oneproxy-dll/subscription.go:117-171 | the last hold of an update: pointer and file advance together to the merge of what is in force, or both stay |
| SessionLibrary.Library.FinishImport | cmd/oneproxy-dll/main.go:492-519 | the last hold of an import: a pointer that moves takes the file with it, and one that stays gets its file back if that can be written |
| SessionLibrary.Tray.DoStart | trayapp/main.cpp:367-389 | one worker at a time, dispatched with the epoch captured on the spot |
| SessionLibrary.Tray.Finished | trayapp/main.cpp:377-387 | the callback of an older generation is ignored |
| SessionLibrary.Tray.StopStartupWorker | trayapp/main.cpp:131-137 | afterwards the worker's callback is outdated and its epoch stale; without an error the library is stopped |
| Supervision.SupervisorLeavesNothing | internal/supervisor/supervisor_unix.go:23-72 | a supervisor that was not killed and is gone has reaped its child; KILL only after TERM, each at most once, and neither while the owner holds the pipe unless the supervisor was signalled |
| Supervision.Process.Supervise | internal/supervisor/supervisor_unix.go:23-72 | the exit code and the signals sent, for every way the selects can go |
| Lifecycle.StepKeeps | internal/proxy/manager.go:128-469 | the invariant of manager, monitor, channels and supervisors survives every step |
| Lifecycle.LaunchesBounded | internal/proxy/manager.go:368-448 | at most three children per lifecycle, one without automatic restart, each after one that was taken to be up after its window and is gone |
| LifecycleRetries.DecisionIff | internal/proxy/manager.go:404-430 | after an exit the monitor tries again exactly if nobody has asked to stop, automatic restart is on, the child was taken to be up and fewer than three were launched; it fails exactly without a stop otherwise |
| LifecycleRetries.BackoffLaunches | internal/proxy/manager.go:421-447 | from the back-off only a stop keeps the monitor from the next launch |
| LifecycleRetries.FailsOnlyWhen | internal/proxy/manager.go:368-448 | in every run a lifecycle with automatic restart that fails has launched exactly three children, or the last one exited in its window, or its last launch failed |
| LifecycleRetries.FailureReported | internal/proxy/manager.go:450-465 | and it ends with exactly one report: to start if the first child did not come up, otherwise to the consumer of done; a lifecycle that does not fail was asked to stop and reports nothing |
| LifecycleWitnesses.ThreeChildren | internal/proxy/manager.go:368-448 | a run from the initial state to a third child that is up, after two that exited by themselves |
| Lifecycle.LaunchSteps | internal/proxy/manager.go:432-447 | a child is launched only to start a lifecycle, or in one that nobody has asked to stop |
| Lifecycle.NoResurrection | internal/proxy/manager.go:194-219 | once the stop channel is closed the lifecycle launches nothing any more, in any interleaving |
| Lifecycle.StartNilIff | internal/proxy/manager.go:128-177 | Start returns nil exactly when Wait had not returned when the monitor looked at the first child, and then only after the window closed |
| Lifecycle.SuccessIff | internal/proxy/manager.go:374-401 | the lifecycle reports success exactly then |
| Lifecycle.PromptMeansHonest | internal/proxy/manager.go:374-401 | if Wait has returned whenever a window closes on a dead child, every child taken to be up was alive when its window closed |
| Lifecycle.LateWaitMisleads | internal/proxy/manager.go:374-401 | whenever a window closes on a dead child with Wait pending, that child can be taken to be up |
| LifecycleWitnesses.StartSucceedsWithDeadChild | internal/proxy/manager.go:374-401 | a run from the initial state in which Start is about to return nil and IsRunning holds, with the child dead and reaped inside its window |
| Lifecycle.StopNilMeansReaped | internal/proxy/manager.go:194-219 | when stop returns nil the lifecycle has ended and every supervisor that was not killed has reaped its child |
| Lifecycle.StopReleasesFirst | internal/proxy/process_unix.go:37-59 | a stop that finds a command closes the owner's end of every supervisor before it can return or give up |
| Lifecycle.ReadyMeansUp | internal/proxy/manager.go:272-276 | IsRunning implies that Wait was still pending when the monitor looked at the current child after its window, and that no stop was asked for |
| Lifecycle.ChannelsAreUsedOnce | internal/proxy/manager.go:373-465 | started gets exactly one value per lifecycle, done at most one and only after a reported success, no send blocks, the stop channel is closed once |
| Lifecycle.StopPublishesIff | internal/proxy/manager.go:179-180 | a stopped lifecycle publishes a terminal error exactly when the monitor had already decided to fail |
| LifecycleWitnesses.StopPublishesACrash | internal/proxy/manager.go:450-465 | such a stop, at the end of a run from the initial state |
| ManagerRestart.TakenIff | internal/proxy/manager.go:256-269 | a watcher receives the old report in the course of a restart exactly when the monitor gives up after the ready check and before the stop, and no report is left for the new start to drain |
| ManagerRestart.BounceIs | internal/proxy/manager.go:256-269 | when its start returns, Restart has brought up a core taken to be up, or returns an error with every process gone; with the condition above these are the outcomes the session model assumes |
| ManagerRestart.LaunchFails | internal/proxy/manager.go:265-267 | a restart that cannot launch the core again returns with every process gone |
| ManagerRestart.RestartHandsOver | internal/proxy/manager.go:256-269 | a run from the initial state in which Restart returns nil and the watcher has the report of the crash |
| ProcessManager.Manager.Start | internal/proxy/manager.go:128-176 | a running manager is refused; otherwise the last owner's end is closed before the launch, a stale report is drained, and the new lifecycle gets fresh channels |
| ProcessManager.Manager.Stop | internal/proxy/manager.go:194-213 | stop's section closes the channel once and only when there is something to stop |
| ProcessManager.Manager.StopProcess | internal/proxy/process_unix.go:37-59 | the owner's end is closed, nothing else changes |
| ProcessManager.Manager.Relaunch | internal/proxy/manager.go:432-447 | the monitor's relaunch section launches exactly with the stop channel open and a working command, and otherwise ends the lifecycle, failed only in the second case |
| ProcessManager.Manager.Decide | internal/proxy/manager.go:404-430 | the decision as programmed, in terms of what was recorded of the last attempt |
| ProcessManager.Manager.End | internal/proxy/manager.go:450-465 | the monitor's last section reports once and ends the lifecycle |
| ProcessOutput.Output.Write | internal/proxy/manager.go:502-538 | tail, diagnosed pieces, pending bytes and loss counter stay those of the whole stream |
| ProcessOutput.SplitUnique | internal/proxy/manager.go:528-536 | a stream has one split at newlines and full buffers only |
| ProcessOutput.Drain | internal/proxy/manager.go:502-538 | for every partition of the output into writes and every failure of the log: the tail is the last 4096 bytes, the pieces are the greedy split at newlines and 4096 bytes, accepted and lost bytes add up |
| Health.StopJoinsEverything | internal/proxy/health.go:106-118 | once Stop has returned no round, scheduler or callback runs, and none begins until the next Start |
| Health.StopEndsQueue | internal/proxy/health.go:106-156 | once a stop has been asked for no round begins to probe and no callback begins until the next Start: rounds that were queued go home |
| Health.CallbackAfterThree | internal/proxy/health.go:189-219 | the callback runs exactly when it is set, the checker is not stopped, and three rounds in a row failed since the last reset |
| Health.OthersRecordNothing | internal/proxy/health.go:189-219 | the failures counted are those of judged rounds since the last healthy one, callback or Start, and of nothing else |
| Health.RoundsAreSerial | internal/proxy/health.go:155-156 | at most one round probes, judges or runs the callback |
| Health.StepKeeps | internal/proxy/health.go:70-220 | the invariant of wait group, round lock, flags and counter survives every step |
| Health.Checker.Start | internal/proxy/health.go:70-102 | a start resets the counter and spawns one scheduler with its own stop channel |
| Health.Checker.Stop | internal/proxy/health.go:106-114 | the stop channel is closed once |
| Health.Checker.Join | internal/proxy/health.go:115-118 | after the wait nothing is left |
| Health.Checker.Judge | internal/proxy/health.go:189-219 | the callback starts only on the third failure in a row, outside the state lock but still inside the round; every other outcome ends the round |

## Left out

- HTTP downloads, base64 and URI parsing, Clash API calls: network code; a feed is any sequence of entries, a download any result.
- JSON encoding, temporary files and permissions: a save is one atomic replacement that succeeds or leaves the file alone; a copied configuration is the same value. The nil-configuration argument checks of the merges have no counterpart.
- File paths given to the core are sequences of components; the generated file is written or not, its contents are those of `SingBox`.
- The draining of a child's output pipes, which Wait also waits for: Wait may return once the supervisor is gone.
- Unicode: case folding and trimming are ASCII, and a character is one rune.
- SHA-256: any function; `FeedOrder` assumes that it does not collide on the identities it compares.
- Files edited by somebody else while the library runs, and the gap between inspecting a log file and opening it.
- 64-bit wrap-around of the start epoch, of byte counters and of counts of lost bytes: they are unbounded.
- Wall-clock durations: timers fire at any moment; only their order with exits and stops is kept. The log writer's clock is a parameter.
- MaySweep: what a partial cleanup may leave behind is not ordered, because the directory is listed in no particular order.
- Libraries outside the model: DNS flushing, diagnostics wording, the status record and the `subscriptionUpdating` flag, which no property relies on.
- The Windows process code, the installer, upgrades, and the tray's menus: only its start and stop worker is modelled.
- Termination of the system as a whole: no liveness of the interleavings is claimed; the loops of the sequential code are proved to end.
- BounceIs: a restart whose stop gives up is not covered; the session model lets it leave the core alive or not, and it may do either.
- The goroutines of a health round that probe single nodes: a round ends with the numbers of checked and healthy nodes.
