# Verified models of the lhpc core

A Dafny 4.11 model of the parts of lhpc whose correctness is a statement about all runs, all crash
points, all packets, all texts or all dependency graphs. `dafny verify dfyconfig.toml` checks it.

* **Firewall helper** (`FirewallModel`, `FirewallPackets`, `FirewallScopes`, `FirewallCompiler`, `FirewallIntent`,
  `FirewallSameIntent`, `ForeignTables`, `FirewallState`, `FirewallTxn`). A candidate is validated, resolved to an ordered
  rule list and compiled to nft expressions; packets get a first-match semantics, and the compiled
  table is proved to do what the scopes say. The helper's operations run one durable step at a time
  on a disk and a live table that other parties may swap in between; `steps` records every step, so
  a statement about its members holds at every crash point.
* **Config store** (`ConfigStore`, `ConfigTxn`, `ConfigRuns`). The multi-file transaction with its
  pre-image journal, rollback and recovery; then any number of interleaved, crashing writers under
  one lock.
* **local.toml printer** (`Toml`, `TomlRoundTrip`). The printer against a parser for TOML v1.0.0
  (sections "Keys", "String", "Integer", "Boolean", "Table") restricted to flat tables.
* **Line editors** (`Editors`, `EditorLaws`, `EditorSettings`, `EditorText`, `EditorSections`,
  `EditorRepeat`). `update_ini` and `update_toml` as loops, against a function that says what became of
  every line; `EditorSections` says of printed headings and key lines what that function does to them.
* **Binary install** (`BinaryTxn`, `BinaryInstall`, `BinaryRollback`, `BinaryCollisions`, `BinaryRuns`). The journal and
  the file tree, every rename a step; the key notion is `Unwound`, the value every path would have
  after a rollback from here.
* **Build planning** (`BuildPlan`, `BuildRounds`, `BuildSources`, `BuildReceipts`) and the detached
  **launcher** (`Launcher`), with any number of launched jobs over one set of locks (`LauncherLocks`).
* **NMEA snapshot** (`NmeaSentence`, `NmeaSnapshot`, `NmeaPrinted`): the incremental parser state against
  the history of sentences fed to it, and sentences printed field by field against what is read from them.
* **Boot restore** (`BootRestore`, `BootDecisions`, `BootPlan`): the planner and its journal validation;
  `BootDecisions` says of the records, the manifest and the markers what is restored.

`Options`, `Collections` and `Ordering` are shared helpers (the last one: stable sorting by a key).
Code that updates state or loops is a class or a method, proved against a specification; the lemmas are about the specification.

## Where the code and its promises part

Each promise is stated with the input on which it fails and with the exact condition under which it holds.

* "Unselected scopes stay dropped until cleanup": an established flow is let in again when the new
  candidate lists the scope unselected without dropping it (`FirewallPackets.TransitionReopens`,
  `FirewallPackets.TransitionKeepsDrops`). "Ingress stays allowed": narrowing its sources cuts the
  others off at once (`FirewallPackets.TransitionCutsIngress`, `FirewallPackets.TransitionKeepsIngress`).
* "An extra allow grazes no deny-default endpoint": the overlap check compares address texts, and a bind
  wildcard passes it (`FirewallScopes.ExtraGrazes`, `FirewallScopes.ExtrasGrazeExactly`); an unselected
  endpoint stays closed all the same (`FirewallPackets.DenyDefaultStaysClosed`). Likewise a listener on
  the literal `::` is covered by an IPv6 rule (`FirewallScopes.LiteralWildcardIsNotContained`,
  `FirewallScopes.CoversExactly`).
* A source CIDR written with a netmask suffix passes validation but cannot be rendered, and apply
  raises (`FirewallCompiler.NetmaskCandidateDoesNotRender`, `FirewallCompiler.RendersExactlyWithoutNetmask`,
  `FirewallTxn.Helper.ApplyCandidate`).
* In a reset a failing unlink is swallowed; a snapshot outlives its ownership record exactly when its
  own unlink failed and the record's did not (`FirewallState.SnapshotOutlivesRecord`,
  `FirewallState.ResetLosesTheRecord`).
* An unreadable snapshot is refused with "zero writes" exactly when a record is there, a table is live
  or the candidate is refused; otherwise a record has been written by then
  (`FirewallTxn.UnreadableSnapshotIsWrittenTo`, `FirewallTxn.Helper.ApplyCandidate`).
* The canonical intent depends on the order of two ingress entries of one scope with different
  sources (`FirewallIntent.IngressOrderShows`, `FirewallIntent.OrderIsMeaninglessExactly`).
* A config transaction that names a target twice, or no target, journals something recovery refuses
  (`ConfigTxn.TwiceIsNotRecoverable`, `ConfigTxn.OwnJournalIsRecoverable`).
* Backup names collide (`BinaryTxn.FlatCollides`), and of two files with one backup name at most one
  comes back (`BinaryCollisions.CollisionLosesOne`, `BinaryCollisions.ComesBackExactly`). A completed
  rollback that runs again deletes a restored file that was also created (`BinaryRollback.SecondRunLoses`,
  `BinaryRollback.RerunExactly`). A symlink that leads nowhere from the backup directory is moved aside
  but never back (`BinaryRollback.LinkIsLost`, `BinaryRollback.LinkComesBack`); a dangling link that a
  published file replaces is lost (`BinaryRollback.CreatedOverNothing`). A second publish in one
  transaction forgets what the first one backed up (`BinaryInstall.SecondPublishLoses`, `BinaryInstall.SecondPublishExactly`).
* A dependency named twice in one `build_requires` is listed twice in a receipt
  (`BuildReceipts.NamedTwiceIsListedTwice`, `BuildReceipts.ListedOnceExactly`).
* `splitlines` also breaks at U+0085, U+2028 and U+2029, so a value holding one makes a second edit
  change the file again (`EditorRepeat.BrokenSettingGrows`, `EditorRepeat.RepeatsExactly`), and an edit
  that declares nothing still rewrites such lines, carriage returns and a missing last line feed
  (`EditorRepeat.NothingDeclaredExactly`).
* The checksum is not split off the last field of a navigation sentence, so one that ends with its status
  (a GLL from before NMEA 2.3) is passed over (`NmeaPrinted.StatusAtTheEndIsIgnored`).

## Model

| member | source | states |
|---|---|---|
| `FirewallModel.ValidateEndpoints` | lhpc/core/firewall_helper.py:171-204 | no endpoint error exactly when there are at most 128 endpoints, each well formed, with distinct (id, band); collects the deny-default ones |
| `FirewallModel.IdOkExactly` | lhpc/core/firewall_helper.py:63-64 | an id is a letter or digit and at most 127 letters, digits, dots, underscores or dashes, and perhaps one trailing newline |
| `FirewallModel.ValidateIngress` | lhpc/core/firewall_helper.py:206-219 | no error exactly when the proxy ingress entries are few enough and each has a legal scope and sources of its family |
| `FirewallModel.ValidateExtra` | lhpc/core/firewall_helper.py:246-268 | no error exactly when every extra allow is legal and overlaps no deny-default endpoint, by the comparison of address texts |
| `FirewallScopes.MeetExactly` | lhpc/core/firewall.py:145-158 | two scopes share a packet exactly when port, families and addresses meet, bind wildcards being any address |
| `FirewallScopes.OverlapExactly` | lhpc/core/firewall_helper.py:150-156 | the overlap check finds every two scopes that share a packet, except exactly those that meet through a bind wildcard |
| `FirewallScopes.ExtrasGrazeExactly` | lhpc/core/firewall_helper.py:246-268 | no extra of a valid candidate shares a packet with a deny-default endpoint exactly when none meets one through a bind wildcard |
| `FirewallScopes.ExtraGrazes` | lhpc/core/firewall_helper.py:246-268 | a valid candidate whose extra on 0.0.0.0 admits a packet to a selected deny-default endpoint that the endpoint's own sources keep out |
| `FirewallScopes.ProtectsExactly` | lhpc/core/firewall.py:161-192 | which protectors contain everything that reaches a listener, a socket on every IPv6 address accepting IPv4 too |
| `FirewallScopes.CoversExactly` | lhpc/core/firewall.py:161-192 | a covering protector contains everything that reaches the listener, except exactly an IPv6 one for the literal `::`; coverage is missed exactly for a protector written as a bind wildcard and a listener written otherwise |
| `FirewallScopes.LiteralWildcardIsNotContained` | lhpc/core/firewall.py:181-192 | a listener on the literal `::`, covered by an IPv6 rule and reached over IPv4 |
| `FirewallModel.ValidateCandidate` | lhpc/core/firewall_helper.py:159-269 | the error list is empty exactly for valid candidates |
| `FirewallModel.ResolveModel` | lhpc/core/firewall_helper.py:291-383 | the loops with their seen-sets produce the specified table, on which the packet theorems are proved |
| `FirewallModel.AppendAllowRules` | lhpc/core/firewall_helper.py:274-288 | appends the rules of one allow scope, one per source CIDR |
| `FirewallModel.AppendEndpointDrops` | lhpc/core/firewall_helper.py:308-320 | appends one drop per distinct droppable scope, in sorted order |
| `FirewallModel.AppendEndpointAllows` | lhpc/core/firewall_helper.py:351-361 | appends the allows of the selected endpoints, each (scope, sources) once |
| `FirewallPackets.UniformRun` | lhpc/core/firewall_helper.py:291-383 | a run of rules with one action decides exactly the packets one of them matches |
| `FirewallPackets.EndpointDropsMeaning` | lhpc/core/firewall_helper.py:308-320 | leaving out repeated scopes changes no verdict: a packet is dropped exactly when it is in some endpoint's scope |
| `FirewallPackets.EndpointAllowsHold` | lhpc/core/firewall_helper.py:351-361 | skipping a repeated (scope, sources) key leaves out no rule |
| `FirewallPackets.AllowsMeaning` | lhpc/core/firewall_helper.py:332-369 | the allow half accepts exactly baseline service and packets in some allow scope narrowed to its sources |
| `FirewallPackets.VerdictInOrder` | lhpc/core/firewall_helper.py:291-383 | loopback first, then early drops and invalid conntrack, then established/related and ICMP, then the rest |
| `FirewallPackets.SecureDefaultAccepts` | lhpc/core/firewall_helper.py:291-383 | secure-default: a non-loopback packet is accepted exactly when it is outside every early-drop scope, not ct-invalid, and established, related, ICMP, baseline or in an allow scope |
| `FirewallPackets.CompatibilityDrops` | lhpc/core/firewall_helper.py:291-383 | compatibility: a non-loopback packet is dropped exactly when it is in an unselected scope, a transition-drop scope, or ct-invalid |
| `FirewallPackets.DenyDefaultStaysClosed` | lhpc/core/firewall_helper.py:291-383 | no allow source and no established flow reopens an unselected deny-default scope |
| `FirewallPackets.LoopbackAlwaysAccepted` | lhpc/core/firewall_helper.py:291-383 | loopback traffic is accepted by every resolved model |
| `FirewallPackets.TransitionKeepsDrops` | lhpc/core/firewall_helper.py:1309-1324 | "stays dropped until cleanup", for a packet of an established flow: exactly when the new candidate no longer lists the scope unselected, or some closed scope covers the packet |
| `FirewallPackets.TransitionVerdict` | lhpc/core/firewall_helper.py:1309-1324 | every non-loopback packet through a transition: accepted exactly when it is in no scope still closed, not ct-invalid, and the mode is compatibility, the new candidate admits it, or kept old ingress does |
| `FirewallPackets.AloneLetsIn` | lhpc/core/firewall_helper.py:291-383 | a table resolved without anything to preserve lets in exactly what the candidate says, for every packet |
| `FirewallPackets.TransitionLetsIn` | lhpc/core/firewall_helper.py:1309-1324 | a table resolved with the transition sets lets in exactly what the two candidates say, for every packet |
| `FirewallPackets.KeepsExactly` | lhpc/core/firewall_helper.py:1309-1324 | something is preserved exactly when old ingress has a scope the new candidate does not list, or an unselected old endpoint one the new candidate does not leave unselected |
| `FirewallScopes.TransitionKeepsScopes` | lhpc/core/firewall_helper.py:1309-1324 | a scope stays dropped for all its packets exactly when each of its families is held whole by some closed scope: one the new candidate drops early, or one the old left unselected and the new does not |
| `FirewallPackets.TransitionReopens` | lhpc/core/firewall_helper.py:1309-1324 | two valid candidates between which a dropped established flow is let in again before the cleanup |
| `FirewallPackets.TransitionKeepsIngress` | lhpc/core/firewall_helper.py:1309-1324 | "stays allowed": a packet the old ingress let in gets through the transition exactly when it is in no closed scope and the mode is compatibility, the new candidate does not list that ingress scope, or the new candidate or other kept ingress admits it |
| `FirewallPackets.TransitionCutsIngress` | lhpc/core/firewall_helper.py:1309-1324 | two valid candidates between which a new connection to applied ingress is cut off before the cleanup |
| `FirewallCompiler.BuildExpectedListing` | lhpc/core/firewall_helper.py:552-567 | the loop builds the specified listing, or raises exactly where that is undefined |
| `FirewallCompiler.RuleMeansItsMatch` | lhpc/core/firewall_helper.py:439-531 | the expressions emitted for a rule accept or drop exactly the packets the abstract rule matches: omitted family atom, bind wildcards, dual scopes narrowed by a CIDR included |
| `FirewallCompiler.ListingMeansTheModel` | lhpc/core/firewall_helper.py:552-567 | first-match evaluation of the expected listing is the verdict of the model, for every packet |
| `FirewallCompiler.RendersUnlessNetmask` | lhpc/core/firewall_helper.py:424-432 | a validated rule renders exactly when its source has no netmask suffix |
| `FirewallCompiler.RendersExactlyWithoutNetmask` | lhpc/core/firewall_helper.py:552-567 | a valid candidate compiles exactly when secure-default quotes no source in netmask form |
| `FirewallCompiler.NetmaskCandidateDoesNotRender` | lhpc/core/firewall_helper.py:424-432 | there is a valid candidate that cannot be rendered |
| `FirewallCompiler.CompiledTableMeansTheScopes` | lhpc/core/firewall_helper.py:424-567 | from validation to expressions: the compiled table treats every packet as the resolved model does |
| `FirewallCompiler.StrippedRulesDecideAlike` | lhpc/core/firewall_helper.py:570-585 | dropping handles, counters and metainfo changes no verdict |
| `FirewallCompiler.VerifiedMeansTheModel` | lhpc/core/firewall_helper.py:588-612 | "verified" only for a live table that treats every packet as the accepted model does |
| `FirewallCompiler.ExpectedIsVerified` | lhpc/core/firewall_helper.py:588-612 | a live table that is the expected one up to volatile parts is verified |
| `FirewallIntent.CanonicalIntent` | lhpc/core/firewall.py:320-337 | normalising the copy's fields in place gives the canonical candidate |
| `FirewallIntent.CanonicalResolvesAlike` | lhpc/core/firewall_helper.py:1484-1500 | the canonical form resolves to the rule list of the candidate itself |
| `FirewallIntent.IntentIdentifiesTheModel` | lhpc/core/firewall_helper.py:1484-1500 | equal canonical intent, same owner, SSH and transition scopes: identical rule list |
| `FirewallIntent.IntentIgnoresOrder` | lhpc/core/firewall.py:320-346 | permuting any list leaves the canonical intent alone when ingress entries of one scope have the same sources |
| `FirewallIntent.IngressOrderShows` | lhpc/core/firewall.py:329-332 | two ingress entries of one scope with different sources show their order in the intent |
| `FirewallIntent.OrderIsMeaninglessExactly` | lhpc/core/firewall.py:320-346 | no reordering of any list shows in the canonical intent exactly when no two ingress entries of one scope have different sources |
| `FirewallSameIntent.SameIntentExactly` | lhpc/core/firewall.py:320-346 | two candidates have one canonical intent exactly when schema, mode, access point, the set of SSH ports and the multiset of extras agree, and each endpoint key and each ingress scope has the same entries in the same order, their sources as multisets |
| `FirewallSameIntent.SourcesTell` | lhpc/core/firewall.py:320-346 | two source lists are normalised alike exactly when they hold the same sources equally often |
| `FirewallSameIntent.PortsShow` | lhpc/core/firewall.py:320-346 | a changed SSH port list keeps the intent exactly when it names the same ports |
| `ForeignTables.ListForeignTables` | lhpc/core/firewall_helper.py:814-882 | reports exactly the tables that are not proved harmless, reading the listing entry by entry, sorted by name |
| `ForeignTables.UnreportedCannotDropOwnTraffic` | lhpc/core/firewall_helper.py:800-882 | an unreported foreign table cannot end a packet the box itself sends or receives, whatever the unreadable parts of the listing may be |
| `ForeignTables.EntryOrderDoesNotMatter` | lhpc/core/firewall_helper.py:814-882 | the order of the entries plays no part in what is reported |
| `ForeignTables.PassedOverExactly` | lhpc/core/firewall_helper.py:832-882 | a listed table is not reported exactly when every entry of the listing can be attributed, its own entry is whole, and it has hooked chains, all of them forward chains or accepting nat postrouting chains without a stopping rule |
| `ForeignTables.StopsByKeys` | lhpc/core/firewall_helper.py:801-811 | a rule stops packets exactly when one of the six verdict keys stands anywhere in its expression tree |
| `FirewallState.ResetLosesTheRecord` | lhpc/core/firewall_helper.py:1087-1103 | swallowed unlinks: the invariant survives the teardown exactly unless the snapshot's unlink failed and the record's did not |
| `FirewallState.SnapshotOutlivesRecord` | lhpc/core/firewall_helper.py:1216-1234 | a consistent disk on which the failing unlink leaves a snapshot without its record |
| `FirewallTxn.Helper.LoadSnapshot` | lhpc/core/firewall_helper.py:1192-1206 | never replaces a table that is not ours; "verified" only when the live table is the snapshot's model |
| `FirewallTxn.Helper.FinishReset` | lhpc/core/firewall_helper.py:1216-1234 | the record goes only after the owned table is proved gone; otherwise record and snapshot stay |
| `FirewallTxn.Helper.UnlinkAll` | lhpc/core/firewall_helper.py:1230-1233 | the teardown's unlinks, any of them possibly failing unnoticed: the record is lost exactly when it goes while a readable snapshot stays |
| `FirewallTxn.Helper.FinishForward` | lhpc/core/firewall_helper.py:1162-1173 | an interrupted apply that was promoted ends with the new ruleset accepted and live, no staging and no journal, where no foreign table is in the way |
| `FirewallTxn.Helper.RollBack` | lhpc/core/firewall_helper.py:1174-1188 | one that was not promoted ends with the old ruleset live, or no table on a first install, no staging and no journal, where no foreign table is in the way |
| `FirewallTxn.Helper.Recover` | lhpc/core/firewall_helper.py:1129-1189 | fails exactly on a journal it cannot act on, then changing nothing; from any state of a switch every step stays within the switch and the journal ends gone |
| `FirewallTxn.Helper.Check` | lhpc/core/firewall_helper.py:1237-1266 | success exactly when the accepted snapshot of this protocol is live (undisturbed), and never otherwise; nothing is changed when no journal was pending |
| `FirewallTxn.Helper.Load` | lhpc/core/firewall_helper.py:1269-1301 | success means the accepted snapshot is live; a foreign table is left alone; from any state a crash or a power loss during an apply leaves, it ends with the old or the new ruleset accepted and live, or reports an old one of another protocol |
| `FirewallTxn.Helper.LoadAccepted` | lhpc/core/firewall_helper.py:1281-1299 | undisturbed, the exit code is determined by the accepted snapshot and the live table, and anything but success changes nothing |
| `FirewallTxn.Helper.ResetAll` | lhpc/core/firewall_helper.py:1503-1538 | refusals change nothing; undisturbed it succeeds on an absent or owned table and leaves no table, record, snapshot or journal |
| `FirewallTxn.Helper.OwnershipRecord` | lhpc/core/firewall_helper.py:1355-1373 | a new id is minted only when record and live table are both absent; an unreadable record refuses |
| `FirewallTxn.Helper.Stage` | lhpc/core/firewall_helper.py:1426-1436 | journal, staged snapshot, journal: nothing canonical or live changes, and every step is within the switch |
| `FirewallTxn.Helper.Switch` | lhpc/core/firewall_helper.py:1426-1479 | success means the new ruleset is accepted and live; undisturbed, every crash point lies between old and new |
| `FirewallTxn.Helper.Undo` | lhpc/core/firewall_helper.py:1439-1459 | a load that did not verify is undone to the previous ruleset, never through a foreign table |
| `FirewallTxn.Helper.Promote` | lhpc/core/firewall_helper.py:1460-1473 | the rename makes the new ruleset canonical while it is live, the journal still naming the switch |
| `FirewallTxn.Helper.ApplyCandidate` | lhpc/core/firewall_helper.py:1327-1481 | success means the valid candidate's compiled snapshot is accepted and live; ready and undisturbed it succeeds exactly when the model renders, and a raise leaves only a fresh record; the refusals write nothing, an unreadable snapshot's exactly when a record is there, a table is live or the candidate is refused; every crash point is one of the switch; the live table lets in exactly the packets of the new candidate, together with the old candidate's open and closed scopes where a snapshot was accepted and no cleanup was asked for; a transitional snapshot leaves its transition record |
| `FirewallTxn.AppliedLetsIn` | lhpc/core/firewall_helper.py:1406-1412 | what an apply makes canonical lets in, packet for packet, what the new candidate says alone with a cleanup or without an accepted snapshot, and otherwise that with what the old candidate kept open and closed; it is transitional exactly when something of the old candidate is on its way out |
| `FirewallTxn.Helper.Decide` | lhpc/core/firewall_helper.py:1374-1416 | everything looked at before the journal opens writes nothing, and stops an undisturbed apply exactly where rendering raises |
| `FirewallTxn.Helper.MayApply` | lhpc/core/firewall_helper.py:1374-1389 | protocol, owner and SSH are looked at without writing, and an undisturbed apply passes them exactly as stated |
| `FirewallTxn.RendersUnlessQuoted` | lhpc/core/firewall_helper.py:1406-1412 | the compiled snapshot renders exactly when secure-default quotes no source in netmask form, kept ingress included |
| `FirewallTxn.UnreadableSnapshotIsWrittenTo` | lhpc/core/firewall_helper.py:1355-1398 | a consistent disk on which the "zero writes" refusal writes a record |
| `FirewallTxn.Helper.Runs` | lhpc/core/firewall_helper.py:1129-1538 | over every sequence of operations with crashes and foreign swaps, failing unlinks included: the helper touches a live table only where there is none or one that bears an id of lhpc's own (record, accepted snapshot or journal), and changes no record whose table is live; until a teardown loses the record, record, owned table, snapshot and journal agree, and a touched table bears the record's id |
| `FirewallTxn.Helper.ApplyThroughCrashes` | lhpc/core/firewall_helper.py:1129-1206 | crash-atomic apply: cut off at any step, recovered with any number of further crashes, it leaves the old or the new ruleset, on disk and live alike, with no journal and no staging file |
| `FirewallTxn.Helper.ApplyThroughPowerLosses` | lhpc/core/firewall_helper.py:1129-1301 | the same when every crash takes the kernel table too and the boot loader runs, itself cut off by further power losses: once it completes, the old or the new ruleset is accepted and live, or the old one is of another protocol and the loader says so |
| `ConfigStore.LastWriteWins` | lhpc/core/config.py:2004-2013 | after the writes a target holds what its last occurrence rendered to |
| `ConfigStore.OthersUntouched` | lhpc/core/config.py:2004-2013 | a file that is no target is untouched |
| `ConfigStore.RestoreKeepsRevertible` | lhpc/core/config.py:1886-1893 | replaying a record in any state, any number of times, stays on the way back and never spoils a restored file |
| `ConfigStore.TargetWritesAreRevertible` | lhpc/core/config.py:2004-2013 | any write to a journaled path leaves the replay as it was |
| `ConfigStore.FreshJournalIsRevertible` | lhpc/core/config.py:1972-1988 | a journal just taken reverts to the files it was taken from |
| `ConfigTxn.Store.ResolveAll` | lhpc/core/config.py:1876-1885 | accepts exactly journals of distinct, allowlisted, safe targets, before any file is touched |
| `ConfigStore.AllowedExactly` | lhpc/core/config.py:1794-1840 | a target is admitted exactly when it is config/local.toml, a .toml file under config/stacks, a .json file under state/restart-required or state/openhop/config.yaml, under its own kind, and not refused as unsafe |
| `ConfigTxn.Store.RestoreAll` | lhpc/core/config.py:1886-1893 | every crash point reverts to the old texts; when it finishes, the texts are the old ones |
| `ConfigTxn.Store.Recover` | lhpc/core/config.py:1844-1899 | a malformed, duplicate, empty or out-of-allowlist journal changes no file; otherwise recovery completes or blocks with the journal kept, every crash point still reverting |
| `ConfigTxn.Store.WriteJournal` | lhpc/core/config.py:1971-1988 | journals every pre-image exactly when every target resolves; else nothing is written |
| `ConfigTxn.Store.RenderAll` | lhpc/core/config.py:1999-2003 | renders all or none, each from the files as they were before the first write |
| `ConfigTxn.Store.WriteAll` | lhpc/core/config.py:2004-2013 | success means all targets hold their rendered bodies; every crash point reverts |
| `ConfigTxn.Store.RollBack` | lhpc/core/config.py:2014-2031 | old texts and no journal, or a journal that still reverts |
| `ConfigTxn.Store.ApplyClean` | lhpc/core/config.py:1971-2036 | every exit is all-old without journal, all-new without journal, or a retained journal whose replay gives all-old; which one is decided by resolution and rendering when file operations succeed |
| `ConfigTxn.Store.Apply` | lhpc/core/config.py:1959-2036 | the same with a pending journal finished first, relative to the files that journal protects |
| `ConfigTxn.Store.ApplyThroughCrashes` | lhpc/core/config.py:1844-2036 | a transaction with distinct targets, cut off anywhere and recovered through any number of crashes, leaves all-old or all-new and no journal |
| `ConfigTxn.OwnJournalIsRecoverable` | lhpc/core/config.py:1873-1883 | a transaction's own journal is one recovery accepts exactly when its targets are distinct and there is one |
| `ConfigTxn.TwiceIsNotRecoverable` | lhpc/core/config.py:1876-1883 | a transaction naming config/local.toml twice journals what no recovery acts on |
| `ConfigRuns.StepKeeps` | lhpc/core/config.py:114-166 | every step of every writer, crash, recovery or rollback keeps the store revertible to the files of the committed operations, and never shortens their sequence |
| `ConfigRuns.EveryGrantSeesWholeOperations` | lhpc/core/config.py:114-124 | serializability: in any run with crashes, a writer that is granted the lock sees the files some sequence of whole operations left, with no journal pending |
| `ConfigRuns.CommittedStays` | lhpc/core/config.py:1902-1926 | no later crash, recovery or rollback takes a committed operation back |
| `Toml.BasicParses` | lhpc/core/config.py:2085-2102 | every valid Unicode string comes back from its escaped basic string |
| `Toml.PrintedAsItStands` | lhpc/core/config.py:2085-2102 | text without quotes, backslashes and control characters is printed as it stands |
| `Toml.KeyParses` | lhpc/core/config.py:2124-2132 | every admitted key, bare or quoted, comes back as one flat key |
| `Toml.ValueParses` | lhpc/core/config.py:2105-2121 | bools, integers, finite floats and strings come back with their type and value |
| `Toml.IntPrints` | lhpc/core/config.py:2105-2121 | an integer is printed with a sign exactly when it is negative, and without leading zeros |
| `Toml.FloatParses` | lhpc/core/config.py:2114-2117 | a finite float comes back as the decimal it was printed as: sign, whole part, fraction, exponent |
| `TomlRoundTrip.RoundTrip` | lhpc/core/config.py:1751-1777 | parsing the printed document gives back the same mapping, root scalars and flat tables |
| `TomlRoundTrip.RenderCells` | lhpc/core/config.py:1764-1769 | prints a table exactly when all its keys and values are admitted |
| `TomlRoundTrip.RenderLocalTables` | lhpc/core/config.py:1751-1777 | writes exactly the admitted data, and then the parse-back check never rejects it |
| `TomlRoundTrip.SurrogatesAreRefused` | lhpc/core/config.py:2090-2093 | text with a lone surrogate is refused as value and as key |
| `EditorLaws.EveryLineIsAccountedFor` | lhpc/core/config.py:1140-1159 | every line of the input, in order, is kept verbatim, replaced by a declared setting or dropped |
| `EditorLaws.SecondRunIsSame` | lhpc/core/config.py:1140-1235 | line by line a second application changes nothing, whatever the values |
| `EditorSettings.SectionsAreComplete` | lhpc/core/config.py:1133-1163 | once anything of a section is settled, everything declared for it is |
| `EditorSettings.OthersKeepTheirLines` | lhpc/core/config.py:1140-1225 | a slot neither declared nor dropped has the same lines, in order, as before |
| `EditorSettings.SetWhereItFirstOccurs` | lhpc/core/config.py:1149-1157 | the first line about a settled slot is the declared setting |
| `EditorText.SplitJoined` | lhpc/core/config.py:1128-1164 | lines without breaks come back from joining and `splitlines` |
| `EditorText.SplitsAt` | lhpc/core/config.py:1128-1141 | a text is split at the first of the ten line ends of `splitlines`, a carriage return and the line feed after it being one, and not at the end |
| `EditorText.Flush` | lhpc/core/config.py:1133-1138 | appends exactly the declared keys the section never had, in their order |
| `EditorText.Update` | lhpc/core/config.py:1128-1235 | the loop over `out`, `section` and `done` returns what the specification says, and raises exactly when a declared section is missing or the final parse fails; `EditorSections` states the specification over printed headings and key lines |
| `EditorText.EverySlotIsSet` | lhpc/core/config.py:1161-1164 | when an editor returns, every declared slot is set first among its lines |
| `EditorSections.HeadingOpens` | lhpc/core/config.py:1141-1148 | an INI heading printed with n brackets keeps the first n - 1 names of the open section and puts its name in place of the rest; a TOML header opens its own name |
| `EditorSections.EndsUnder` | lhpc/core/config.py:1141-1148 | lines whose headings stand one under the other, with only deeper ones in between, end in the section of exactly these names, whatever was open before |
| `EditorSections.KeyLine` | lhpc/core/config.py:1149-1152 | a key line, however spaced and commented out or not, is about its key in the open section |
| `EditorSections.KeyInItsSection` | lhpc/core/config.py:1141-1157 | a key line under its headings becomes the declared setting, indented as it was or by two per level, unless its slot was settled before; otherwise it is dropped where that is asked for, and kept |
| `EditorSections.FirstKeyIsSet` | lhpc/core/config.py:1128-1164 | the first key line under the first headings of a declared section stands in the edited text as the setting, the lines before and after it accounted for |
| `EditorSections.AppendedToItsSection` | lhpc/core/config.py:1133-1145 | where a section ends, its missing keys are appended in their declared order, indented by two per level in an INI and not at all in TOML |
| `EditorSections.RaisesExactly` | lhpc/core/config.py:1161-1164 | an edit raises exactly when a declared section is never open or the result does not parse |
| `EditorSections.HeadingsAreVisited` | lhpc/core/config.py:1141-1148 | a section is open once the headings of its path stand one under the other |
| `EditorRepeat.SecondApplicationIsSame` | lhpc/core/config.py:1110-1235 | settings without line breaks: the second application gives the same text, drops included |
| `EditorRepeat.RepeatsExactly` | lhpc/core/config.py:1128-1164 | with no control characters and nothing to drop, a second application changes nothing exactly when no setting holds one of the three non-ASCII line breaks |
| `EditorRepeat.BrokenSettingGrows` | lhpc/core/config.py:1128-1164 | a setting holding U+2028, put into an empty file, changes it again when put there a second time |
| `EditorRepeat.NothingDeclaredExactly` | lhpc/core/config.py:1128-1235 | with nothing declared the text comes back unchanged exactly when every line, the last one too, ends in a line feed and nothing else breaks a line |
| `BinaryTxn.FlatCollides` | lhpc/core/binary_install.py:576-577 | two different paths share a backup name |
| `BinaryCollisions.CollisionLosesOne` | lhpc/core/binary_install.py:576-600 | of two files set aside under one backup name at most one comes back, whatever the orders of the renames |
| `BinaryCollisions.ComesBackExactly` | lhpc/core/binary_install.py:594-600 | files set aside and put back, in any orders: the tree is as before exactly when no two share a backup name |
| `BinaryTxn.PlainNamesApart` | lhpc/core/binary_install.py:576-577 | paths without underscores never share one |
| `BinaryTxn.FileMove` | lhpc/core/binary_install.py:594-599 | moving a journaled file to its backup makes its content what a rollback gives back, and changes nothing else |
| `BinaryTxn.DirMoveAside` | lhpc/core/binary_install.py:619-622 | what a rollback gives back once a journaled directory was renamed to its backup |
| `BinaryTxn.DirMoveBack` | lhpc/core/binary_install.py:698-709 | renaming a backup back onto its cleared place restores that directory and disturbs no other backup |
| `BinaryInstall.Installer.OpenTxn` | lhpc/core/binary_install.py:554-563 | an open transaction can be undone to the tree it found |
| `BinaryInstall.Installer.Displace` | lhpc/core/binary_install.py:580-600 | exactly the existing non-directory leaves are renamed to their backups and no other file changes, whatever collides; every crash point can be undone under the side conditions |
| `BinaryInstall.Installer.MoveToBackups` | lhpc/core/binary_install.py:595-599 | the renames in some order, later ones overwriting a taken name; each crash point undoable when the files are journaled and movable |
| `BinaryInstall.Installer.DisplaceDir` | lhpc/core/binary_install.py:603-623 | a directory is moved aside whole, journaled first, or stays where the rename fails; every crash point can be undone when nothing under it is waiting to be undone |
| `BinaryInstall.SetAsideExactly` | lhpc/core/binary_install.py:619-622 | the rename of a journaled directory can be undone exactly when nothing under it is a file the rollback would delete |
| `BinaryInstall.Installer.NoteCreatedDir` | lhpc/core/binary_install.py:626-635 | only the journal changes; it can be undone when nothing of the operator's is under the directory |
| `BinaryInstall.CreatedDirExactly` | lhpc/core/binary_install.py:633-634 | noting a directory as created can be undone exactly when everything under it is the transaction's |
| `BinaryInstall.Installer.Publish` | lhpc/core/binary_install.py:636-660 | all staged files land and no other file changes; nothing happens when there are none; every crash point can be undone under the side conditions |
| `BinaryInstall.SecondPublishExactly` | lhpc/core/binary_install.py:645-656 | a second publish, as it is noted, can be undone exactly when everything the first one backed up would be given back without its entry |
| `BinaryInstall.SecondPublishLoses` | lhpc/core/binary_install.py:645-656 | one file published over the operator's, then another one: a rollback does not give the operator's back |
| `BinaryInstall.Installer.Promote` | lhpc/core/binary_install.py:657-660 | the staged files land one by one; each crash point undoable where they replace a backed-up file or nothing |
| `BinaryRollback.RemoveCreated` | lhpc/core/binary_install.py:683-689 | no created file is left, and the way back is kept at every step |
| `BinaryRollback.RemoveCreatedDirs` | lhpc/core/binary_install.py:690-697 | no created directory is left, and the way back is kept at every step |
| `BinaryRollback.RestoreDirs` | lhpc/core/binary_install.py:698-712 | outermost first, every displaced directory is back, nested ones included |
| `BinaryRollback.RestoreFiles` | lhpc/core/binary_install.py:713-724 | every file with a backup is back, after the directories: the tree is the one the renames in some order give |
| `BinaryRollback.RollbackFiles` | lhpc/core/binary_install.py:675-724 | gives back exactly the files before the transaction; it completes whenever that tree was a proper one |
| `BinaryRollback.RerunExactly` | lhpc/core/binary_install.py:683-697 | a second run after a completed one is harmless exactly when nothing restored is a created file or inside a created directory |
| `BinaryRollback.SecondRunLoses` | lhpc/core/binary_install.py:683-689 | a file set aside and created anew is deleted by the second run |
| `BinaryRollback.LinkComesBack` | lhpc/core/binary_install.py:713-721 | a displaced leaf comes back exactly when it is a regular file or a link that resolves from the backup directory |
| `BinaryRollback.LinkIsLost` | lhpc/core/binary_install.py:590-592 | a displaced link that does not resolve from the backup directory does not come back |
| `BinaryRollback.CreatedOverNothing` | lhpc/core/binary_install.py:646-660 | a target published as new is given back exactly when nothing was there, not even a dangling link |
| `BinaryRollback.RecoverThroughCrashes` | lhpc/core/binary_install.py:675-724 | any number of rollbacks, each cut off after a given number of states, then one that completes, give back the tree |
| `BinaryRollback.DropTxn` | lhpc/core/binary_install.py:727-731 | dropping the backups touches nothing outside the backup area |
| `BinaryRollback.Commit` | lhpc/core/binary_install.py:663-672 | no backup goes before the committed journal is durable; nothing published is touched |
| `BinaryRuns.Install` | lhpc/core/binary_install.py:554-660 | every crash point of any sequence of operations under their side conditions can be undone |
| `BinaryRuns.InstallThenRollBack` | lhpc/core/binary_install.py:554-724 | any install, cut off after any number of states and rolled back, leaves exactly the files that were there |
| `BinaryRuns.InstallThenCrash` | lhpc/core/binary_install.py:554-660 | an install cut off after any number of states leaves the old tree and no journal, or a journal that undoes to it |
| `BinaryRuns.InstallThroughCrashes` | lhpc/core/binary_install.py:554-724 | the same with the rollbacks cut off too, after any numbers of states, when a rollback may be run again |
| `BuildPlan.SeenDoesNotMatter` | lhpc/core/build_plan.py:20-26 | on an acyclic graph the cut at cycles never changes a rank |
| `BuildPlan.ProviderRanksLower` | lhpc/core/build_plan.py:20-26 | a provider ranks below its consumers |
| `BuildPlan.RankedMeansAcyclic` | lhpc/core/build_plan.py:20-26 | a ranking with every provider lower exists only for acyclic graphs |
| `BuildPlan.ProvidersFirst` | lhpc/core/build_plan.py:29-33 | `order` puts every provider before its consumers |
| `BuildPlan.OrderIsStable` | lhpc/core/build_plan.py:29-33 | components of one rank keep their order |
| `BuildPlan.Order` | lhpc/core/build_plan.py:29-33 | a permutation of the components |
| `BuildRounds.RoundIsReady` | lhpc/core/build_plan.py:54-65 | every in-plan provider of a component in a round is built already |
| `BuildRounds.RoundHoldsExactly` | lhpc/core/build_plan.py:54-65 | another round follows exactly while a provider is unbuilt; until then a round is the unbuilt providers of lowest rank, and the last one is every component that is no provider, built or not |
| `BuildRounds.RoundKeepsOrder` | lhpc/core/build_plan.py:54-65 | a round keeps the order of the plan |
| `BuildRounds.RoundIsApart` | lhpc/core/build_plan.py:54-65 | a provider and its consumer never build in one round |
| `BuildRounds.RoundFinishesARank` | lhpc/core/build_plan.py:61-64 | a round that another must follow finishes exactly one provider rank |
| `BuildRounds.OneRoundPerRank` | lhpc/core/build_plan.py:54-65 | repeated successful rounds take one more than the provider ranks left, and then everything is built |
| `BuildRounds.RoundsAreBounded` | lhpc/core/build_plan.py:54-65 | never more than one round above the number of distinct provider ranks |
| `BuildSources.LockSources` | lhpc/core/build_plan.py:36-51 | exactly the source paths of the transitive closure, sorted, each once |
| `BuildReceipts.ConsumedIds` | lhpc/core/build_plan.py:117-120 | the list grown while it is walked is the specified walk, and the loop ends on cyclic graphs |
| `BuildReceipts.ConsumedIsTheClosure` | lhpc/core/build_plan.py:117-120 | the walk lists the closure, unknown ids included, and nothing else |
| `BuildReceipts.ListedOnceExactly` | lhpc/core/build_plan.py:117-120 | every walk lists each id once exactly when no component names a provider twice |
| `BuildReceipts.NamedTwiceIsListedTwice` | lhpc/core/build_plan.py:117-120 | a component naming a provider twice has it listed twice |
| `BuildReceipts.ConsumedSources` | lhpc/core/build_plan.py:106-122 | which pairs a receipt records: nothing, the closure, or the closure without the component itself |
| `BuildReceipts.ReceiptSourcesAreLocked` | lhpc/core/build_plan.py:36-51 | every known source a receipt records is among the locked ones |
| `Launcher.Launch.TakeOpening` | lhpc/core/build_launcher_runtime.py:276-319 | round lock, index lock, journal check, in that order, stopping at the first that fails |
| `Launcher.Launch.TakeSources` | lhpc/core/build_launcher_runtime.py:321-341 | the source locks in sorted order, then the index lock is given up; a failure leaves a proper prefix of the schedule |
| `Launcher.Launch.Invalidate` | lhpc/core/build_launcher_runtime.py:357-375 | the marker is gone before the first step, or the job stops with nothing changed |
| `Launcher.Launch.RunSteps` | lhpc/core/build_launcher_runtime.py:377-408 | done means every step passed and saw the locked sources as they were read for the receipt |
| `Launcher.Launch.WriteMarker` | lhpc/core/build_launcher_runtime.py:409-424 | sidecars before the marker: every crash point is sound |
| `Launcher.Launch.Run` | lhpc/core/build_launcher_runtime.py:272-437 | every state of a run is sound; done implies the whole lock schedule and this job's marker, anything else no marker or the one that was there; with free locks, no journal and nothing that fails it is done, unless superseded |
| `Launcher.Launch.RunAll` | lhpc/core/build_launcher_runtime.py:272-437 | marker soundness over any sequence of jobs with crashes: a marker on disk belongs to the last run that started, whose steps all passed, with its sidecars written and its receipt naming what every step consumed |
| `Launcher.WaitsHoldingNothing` | lhpc/core/build_launcher_runtime.py:276-294 | a job that waits for the round lock holds no other lock |
| `Launcher.HandOff` | lhpc/core/build_launcher_runtime.py:295-337 | every source lock is taken under the index lock, the journals checked under it, and exclusively exactly when it is one of the job's exclusive names |
| `Launcher.ReleasedLast` | lhpc/core/build_launcher_runtime.py:338-341 | the index lock goes only when every source lock is held |
| `Launcher.TakenInOrder` | lhpc/core/build_launcher_runtime.py:323-337 | source locks are taken in one strictly ascending order |
| `LauncherLocks.RunKeepsApart` | lhpc/core/build_launcher_runtime.py:323-345 | in every state of every run of any number of jobs, no two hold one lock but by sharing it |
| `LauncherLocks.AdmittedHolds` | lhpc/core/build_launcher_runtime.py:323-345 | an admitted job holds every source lock of its own, exclusively exactly those it names exclusively |
| `LauncherLocks.TogetherGetAlong` | lhpc/core/build_launcher_runtime.py:283-345 | jobs at work at the same time have no round lock in common and no common source that either needs for itself |
| `LauncherLocks.TogetherIfShared` | lhpc/core/build_launcher_runtime.py:283-345 | any two jobs of that kind do work at the same time in some run |
| `LauncherLocks.SomeoneMoves` | lhpc/core/build_launcher_runtime.py:278-345 | the jobs never all wait for each other: while one is not over, some job can go on |
| `NmeaSentence.OneByteChangeIsNoticed` | lhpc/core/gps.py:470-489 | changing one payload byte of a valid sentence makes it invalid |
| `NmeaSentence.CoordIsInRange` | lhpc/core/gps.py:581-605 | a coordinate that is read at all is within its range |
| `NmeaSentence.PositionIsInRange` | lhpc/core/gps.py:504-542 | a usable position is on the globe and its sentence had a valid checksum |
| `NmeaPrinted.CoordReads` | lhpc/core/gps.py:581-605 | d degrees and m minutes printed as ddmm.mmmm or dddmm.mmmm are read as d + m/60 under N or E and as its negation under S or W; as nothing with minutes of 60 or more, a value over the limit or another letter |
| `NmeaPrinted.OnlyPrintsRead` | lhpc/core/gps.py:581-605 | every coordinate that is read was printed in that form, with one hemisphere letter |
| `NmeaPrinted.Strips` | lhpc/core/gps.py:581-620 | white space around a field goes, and nothing else |
| `NmeaPrinted.FieldsRead` | lhpc/core/gps.py:686-700 | fields without commas come back from the joined sentence |
| `NmeaPrinted.ChecksumPasses` | lhpc/core/gps.py:473-493 | a sentence printed with its checksum passes the check |
| `NmeaPrinted.OneDigitReads` | lhpc/core/gps.py:485-489 | a checksum of one digit is read padded on either side or with a sign, a minus sign for zero only |
| `NmeaPrinted.SentenceSays` | lhpc/core/gps.py:511-547 | a printed GGA, RMC, GLL or GNS is no navigation sentence without a legal status, has no position where the status claims no fix, and otherwise the position its four fields print, exactly when they print one |
| `NmeaPrinted.StatusAtTheEndIsIgnored` | lhpc/core/gps.py:511-547 | a GGA, GLL or GNS whose status is its last field is no navigation sentence |
| `NmeaPrinted.AltitudeSays` | lhpc/core/gps.py:727-733 | the altitude is the ninth field of a GGA or GNS that has a position |
| `NmeaPrinted.IntReads` | lhpc/core/gps.py:616-618 | an integer field is its decimal digits, trimmed |
| `NmeaPrinted.GsvSays` | lhpc/core/gps.py:755-792 | a printed GSV is the part it says of its group, with the satellites that have a number and their values in range; without a total, a part number within it and a count it is none |
| `NmeaSnapshot.Snapshot.Feed` | lhpc/core/gps.py:678-700 | every line keeps the state a function of the sentence history; a line without a valid checksum changes no field, any other moves partial and published groups by its one step |
| `NmeaSnapshot.Snapshot.TakeNav` | lhpc/core/gps.py:702-737 | a fix sets the position; a sentence without one clears position and altitude |
| `NmeaSnapshot.Snapshot.TakeSky` | lhpc/core/gps.py:755-794 | one step of the assemblies: a part joins its set, starts one, completes it or is dropped; at most 32 partial groups of at most 64 satellites |
| `NmeaSnapshot.Snapshot.Read` | lhpc/core/gps.py:804-860 | a position is reported exactly when the latest navigation sentence is at most 20 s old and carried one, and it is that one; likewise the altitude; stale and no-data exactly when they should be |
| `NmeaPrinted.FeedThenRead` | lhpc/core/gps.py:678-735 | a printed navigation sentence, fed and read within 20 s, is reported as exactly the position its fields print where it claims a fix, and as no fix where it claims none; later as stale |
| `NmeaSnapshot.NextSkyOk` | lhpc/core/gps.py:755-794 | a group is published only when all its parts arrived, without a restart, since its last part 1, and it holds the satellites of those parts, filled in the order they came |
| `NmeaSnapshot.AltitudeNeedsAFix` | lhpc/core/gps.py:714-733 | an altitude that is kept always belongs to a fix that still holds |
| `BootRestore.BandAgrees` | lhpc/core/boot_restore.py:234-262 | a band that is found agrees with every source that names one, uses no unsafe marker, is named by a source or fixed by the manifest, and is declared |
| `BootDecisions.BandExactly` | lhpc/core/boot_restore.py:234-262 | a band is found exactly when no marker is unsafe, no source names another band, and the manifest fixes it or a source names it and the stack declares it |
| `BootDecisions.DecidedAs` | lhpc/core/boot_restore.py:279-334 | a stack is restored on the fitting band with exactly its own-started restorable parts, sorted, ordered by the last valid start or else the first full start; or skipped for the reason its records give |
| `BootDecisions.OneReason` | lhpc/core/boot_restore.py:279-321 | a stack that a reason applies to is skipped for that reason and no other |
| `BootRestore.PlannedBandAgrees` | lhpc/core/boot_restore.py:302-323 | a planned band contradicts no full-stack record of the stack's main and no valid marker |
| `BootRestore.DecisionIgnoresOrder` | lhpc/core/boot_restore.py:291-334 | what is decided for a stack does not depend on the order of its evidence |
| `BootPlan.WalkStacks` | lhpc/core/boot_restore.py:279-334 | the loop conserves launch ids, gives every restorable stack one item and every other its reason |
| `BootPlan.DerivePlan` | lhpc/core/boot_restore.py:265-342 | every launch id in exactly one item or skipped entry; one item per stack, oldest start first; every item with the band and parts that the records, manifest and markers give, every skipped stack with its reason, and none missing on either side; the items in the order of the start times; the daemon's item last, there exactly when it left evidence, with all of it and its allowed bands; a journal of the plan validates when the random ids are distinct and nothing recorded is empty |
| `BootPlan.StacksRecorded` | lhpc/core/boot_restore.py:279-334 | an item is there exactly for the stacks the records restore, with their band and parts |
| `BootPlan.SkipsRecorded` | lhpc/core/boot_restore.py:279-321 | an entry is there exactly for the stacks the records do not restore, with the reason |
| `BootPlan.OrderRecorded` | lhpc/core/boot_restore.py:325-337 | of two restored stacks the one with the earlier start time comes first, then the name decides |
| `BootPlan.EveryLaunchIsAccountedFor` | lhpc/core/boot_restore.py:265-342 | every launch id is in exactly one item or one skipped entry |
| `BootPlan.OneItemPerStack` | lhpc/core/boot_restore.py:336-341 | at most one item per stack, nothing after the daemon's |
| `BootPlan.ItemsAsDecided` | lhpc/core/boot_restore.py:331-334 | every stack item has the decided band, parts and all launch ids of its stack |
| `BootPlan.NoStackIsForgotten` | lhpc/core/boot_restore.py:279-337 | every stack to be restored has its item |
| `BootPlan.PlanIgnoresEvidenceOrder` | lhpc/core/boot_restore.py:265-342 | two plans of the same evidence in any two orders have the same set of (target, band, components), the same daemon bands and the same skipped stacks with their reasons |
| `BootPlan.ValidateJournal` | lhpc/core/boot_restore.py:56-131 | accepts exactly structurally valid journals with distinct item ids |
| `BootPlan.PlanValidates` | lhpc/core/boot_restore.py:41-53 | a derived plan wrapped in a new journal validates, distinct random ids given, exactly when run id, pid and the recorded names are not empty |

## Left out

Firewall:

- Text: nft script rendering, parsing of sshd, ss, systemctl and nft output, receipts, the log and the busy exits of the lock are not part of this model; the candidate is typed, so JSON type errors are not either.
- Addresses are canonical tokens and CIDRs parsed prefixes; sources are sorted by a total order on their fields instead of by their text. SHA-256 is content equality.
- The code requires an endpoint's `band` although its comments call it optional, and its name patterns admit one trailing newline; the model follows the code.
- Each check-then-act on the live table is one step. Other parties may remove, replace or edit the table and files may become unreadable, but nobody else writes lhpc's ownership comment.
- FirewallTxn.Helper.Runs: after a teardown has lost the record (`FirewallTxn.Helper.UnlinkAll`, `FirewallState.ResetLosesTheRecord`) only what is independent of it is promised, as the row says; a teardown without any record looks for the empty id, which counts as lhpc's own because no minted id equals it. What a file held before it became unreadable is kept as history the helper never looks at.
- FirewallTxn.Helper.ApplyThroughCrashes: nothing else acts between the crashes, and nft and unlinks succeed; with interference only the safety of `FirewallTxn.Helper.Runs` is stated. The transition record may lag behind after a crash, as recovery does not restore it. The same holds for `FirewallTxn.Helper.ApplyThroughPowerLosses`.
- The unprivileged twin of the validation (`validate_candidate` of firewall.py) is not modelled a second time.

Config:

- ConfigTxn.Store.Recover: restores texts, not file modes, because the journal records the new mode.
- Symlinks and containment are a set of refused paths; lock timeouts and reentrancy guards are not part of this model; single-file writes are atomic and unlinking a missing file succeeds.
- TomlRoundTrip.RoundTrip: a finite float is the decimal `repr` prints for it, infinities, NaN, dates and arrays are refused as unsupported; Python's limit on the length of integer literals is not modelled; the parser covers the TOML subset the printer writes.
- EditorText.Update: takes the rendered settings and the drop list as input (`_ini_scalar`, `_toml_value` and substitution are not part of this model), and the final TOML parse is a parameter.
- EditorRepeat.RepeatsExactly: the equivalence is stated without dropped keys and without control characters; with dropped keys a fragment of a broken value may itself be dropped, and a trailing carriage return merges with the line feed, so a broken setting may repeat by accident there. `SecondApplicationIsSame` covers all of these one way.
- `update_yaml` is left out.

Binary install:

- BinaryRollback.RollbackFiles: empty directories are not represented and file modes are not modelled; whether a link resolves from the backup directory is an attribute of the link; an OS error is a crash at that point.
- BinaryRuns.InstallThroughCrashes: says nothing when a restored path is also journaled as created; `BinaryRollback.SecondRunLoses` shows why.
- BinaryRuns.Install: goes on only while the side conditions of the next operation hold (`Admitted`: no backup-name collision, nothing of the operator's under what the transaction deletes, one publish per transaction); the operations themselves are not so limited, and the lemmas named above say what is lost otherwise. A missing journal, on which the operations raise, is not modelled.
- The journal's maps are sets, as each backup is `backup_path` of its key; displaced directories are restored sorted by their path components.
- Download, verification, extraction, probes and the install receipt are not part of this model.

Builds:

- BuildSources.LockSources: the components come from the manifest's own map, one per id; likewise for receipts.
- BuildReceipts.ConsumedSources: the source directory of a known id stands for itself; reading git HEAD is the launcher's `ReadRevs`.
- Memory size and the choice of the round lock, `select` and `artifact_capable` are left out as table lookups.
- Launcher.Launch.RunAll: jobs of one component follow one another, as `LauncherLocks.TogetherGetAlong` says of jobs with a common exclusive source; other parties change a source only while this job does not hold its lock; a job without a marker path leaves the marker alone. Spawning, environments, stalls and the web job's result file are left out; the web gate is the one answer `superseded`.
- LauncherLocks.SomeoneMoves: round, index and source locks bear different names, as lhpc's lock files do; a lock that cannot be opened, a timeout and a failing step all count as the end of a job, which may come at any point.

NMEA and boot restore:

- NmeaSnapshot.Snapshot.Read: the 2D/3D grade from GSA, time and date, satellites in use, the raw tail and the merged satellite list are left out; coordinates are reals; reading a float field is a parameter; CPython's limit on the digits of an integer field is not modelled.
- BootPlan.PlanIgnoresEvidenceOrder: the order of the items may follow the order of the evidence, because the start time falls back to that of the first record.
- Times are integers, random ids a function giving one token after another, and JSON types and file access are not part of this model. A stack without any band source is skipped, as in the code.
- Other modules of lhpc (daemon control and parameters, clock, automatic install, dependency scripts, assets, web front end, CLI) are left out.
