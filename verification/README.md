# Verified model of wgd, the macOS WireGuard daemon

`wgd` keeps any number of WireGuard configurations in a privileged store, brings
their helpers up and down on request and at boot, and keeps selected LAN
prefixes off the tunnel. This project models the parts of it that are hardest to
get right and proves, for every input, every interleaving of threads and every
crash point, what they keep and where they stop keeping it.

`dafny verify dfyconfig.toml` checks everything.

## What is modelled

- **The daemon as a concurrent state machine** (`Records`, `Daemon*`). Any number
  of threads run Add, Refresh, Remove, Connect, Disconnect, Reconnect, the mode,
  DNS and link settings, boot and session reconciliation and the crash sweep over
  the shared records, markers, sockets and helpers. A handler is a sequence of
  phases cut at its lock points; `Daemon.Section` is the code between two of them
  and `Daemon.Apply` one step of the machine. A lock is held by the thread whose
  phase says so. Helpers crash or exit, record files become unreadable, stats and
  writes fail, and a thread may stop anywhere. `connection_store::update` writes
  whatever it is given, so `Daemon.Save` does too; that it never resurrects a
  record is a theorem. History fields record which ids were minted and created,
  whether `force` ever carried a name, and which refreshes overlooked a running
  tunnel. `DaemonRuns` speaks about whole runs by the index of their steps: who
  wrote a record, what a reply vouches for and how long an acknowledged setting
  lasts are read off the run itself. `DaemonOutcomes` says what success means,
  `DaemonRefusals` what every other answer means, `DaemonCallers` who may ask,
  `DaemonFrames` what a request may write; `DaemonAnswers` puts them together.
- **The helper handshake on one interface** (`HelperProtocol`, `HelperWitness`,
  `HelperEffects`): socket, pid, name and cleanup files, the tunnel interface, pid
  reuse, and helpers that crash anywhere. `HelperEffects` ties it to the daemon: as long
  as the daemon does not die during a start, every step of the handshake is one of the
  effects `Daemon` has for its helpers, so a spawn meets no live helper, only dead files
  are cleared, and a confirmed disconnect is a `BringDown`.
- **The LAN bypass-link algebra** (`Cidr`, `BypassLinks`, `MergeLinks`, `LinkSpec`,
  `Routes`): prefixes as bit strings, canonical form, validation, pruning, merging,
  the `--set-link` syntax, and the route table the helper wants, judged by
  longest-prefix match (section 5.1 of RFC 4632).
- **Boot reconciliation** (`Boot`): the marker, and passes whose attempts are
  requests in a run of the daemon.
- **Durable files** (`StateFile`), **name resolution** of the command line (`Cli`)
  and the **MTU rewrite** (`MtuOverride`).

Loops and in-place updates of the source are methods and classes proved against
the functions the theorems speak about. The request handlers are functions from
shared state to shared state because other threads run between their sections;
`DaemonInvariant` says what each phase may rely on (`ThreadOk`), what a section may
change given its locks (`Guarantee`), and that the first survives the second
(`Stable`).

The configuration parser, the fingerprint and the MTU rewrite enter the store
through `Records.Language`. The store theorems hold for every language that obeys
`Records.Lawful`, and `Records.StoreLanguageLawful` shows that the daemon's own
validation and pruning do, whatever the parser.

## What the proofs found

Where a promise is false as the code stands, the code is kept as it is, the exact
condition is proved, and a run shows that the condition is needed. One piece of code
is behind the first three: `reconcile_existing_add` writes back a record it read
before it had the connection lock.

- doc/architecture.md:134 promises that an explicit disconnect holds until a user
  connect or a mode change to Automatic. An identical resubmission that overlaps the
  disconnect clears the flag and the next reconciliation brings the tunnel up
  (`DaemonWitness.StaleCopyUndoesDisconnect`,
  `DaemonWitness.DisconnectCanBeLost`). Without such a copy waiting the promise
  holds (`DaemonDisconnect.DisconnectStaysDown`). The comment at
  src/privileged/dispatch.rs:870-874 promises the flag even if the teardown fails half
  way: from the write of the flag on it stays, however the teardown ends, exactly if no
  such copy is waiting (`DaemonIntent.MarkedExactly`).
- An acknowledged change of the start mode, the DNS switch or the bypass links is
  undone the same way. It lasts, in every run in which nobody asks for another
  value, exactly if no resubmission is waiting with a copy that disagrees
  (`DaemonSettings.AcknowledgedExactly`), and such states are reachable for each of
  the three (`DaemonSettings.AcknowledgedCanBeLost`). The socket service answers these
  settings and Add on one thread (src/privileged/dispatch.rs:145-225), so this overlap,
  and the next one, need a second process that serves a caller over stdio
  (src/privileged/mod.rs:262-312).
- doc/architecture.md:273-276 promises that only real admin authentication turns a
  global connection from manual to automatic. After an owner took the automatic
  start back, a resubmission without any form can write its old copy and make it
  automatic again (`DaemonProvenance.RevivalIsReachable`). Every automatic start
  goes back to a step whose form was verified exactly if it was not such a write
  (`DaemonProvenance.AutomaticStartsAreApproved`); for the text of a record there is
  no exception (`DaemonProvenance.TextsAreApproved`).
- The fingerprint-mismatch branch of `connect` is dead unless a refresh took a
  running tunnel for inactive because the stat in `active_debug` failed, which is
  read as "not there" (`DaemonGuarantees.MismatchNeedsFault`,
  `DaemonWitness.FailedStatMismatches`, `DaemonWitness.MismatchIsReachable`).
- A record that becomes unreadable after the strict listing does not stop the
  write that listing permitted. While a record is unreadable, nothing is created
  and no identity changes exactly if no thread is past its listing
  (`DaemonUnreadable.FrozenExactly`); adds and refreshes past it write all the same
  (`DaemonUnreadable.SpoiledTooLate`), and both are reachable
  (`DaemonUnreadable.LateAddReachable`, `DaemonUnreadable.LateRefreshReachable`).
- The handshake relies on three things it does not enforce: a helper that has
  reported has unlinked its socket and pid file before its successor starts, no old
  "ok" is left for the successor to be confirmed by, and the daemon does not die during
  a start, unless a leftover pid file happens to name the new helper already
  (`HelperProtocol.Tidy`). From every state that such steps lead to, a step leaves every
  such continuation with at most one helper at work and no disconnect confirmed beside
  one, if and only if it is such a step (`HelperWitness.TidyExactly`), and each of the
  three untidy steps can come up (`HelperWitness.LateUnlinksReachable`,
  `HelperWitness.OldStatusReachable`, `HelperWitness.DeathDuringStartReachable`).
- `remove_durable` answers Ok for a file that is already gone without syncing the
  directory, so the file can come back if an earlier removal was not synced
  (`StateFile.RemoveDurable`, `StateFile.UnsyncedRemovalReturns`).
- The MTU rewrite is last-wins exactly on texts without stray carriage returns,
  because each pass takes one carriage return off every line
  (`MtuOverride.LastWins`).

## Model

| member | source | states |
|---|---|---|
| `Cidr.ContainsIsInclusion` | src/bypass_links.rs:56-60 | one prefix contains another exactly if it covers every address the other covers |
| `Cidr.TruncClears` | src/bypass_links.rs:241-253 | exactly the host bits are cleared, and canonical is what has none set |
| `Cidr.TruncKeepsMeaning` | src/bypass_links.rs:244-253 | clearing host bits yields a canonical prefix that covers the same addresses, is contained in the same prefixes and contains the same ones |
| `BypassLinks.CanonicalLink` | src/bypass_links.rs:244-253 | the loop clears host bits and keeps the first of each repeated prefix, in order |
| `BypassLinks.CanonIsCanonical` | src/bypass_links.rs:241-253 | the result has network addresses only and no prefix twice |
| `BypassLinks.CanonFixesCanonical` | src/bypass_links.rs:241-253 | a canonical link is left as it is |
| `BypassLinks.ValidateLinks` | src/bypass_links.rs:272-304 | the report holds exactly the links that pass, and the others with their first reason, in order |
| `BypassLinks.StrictIsAllFine` | src/bypass_links.rs:306-317 | the strict form accepts exactly if every link passes |
| `BypassLinks.ReportSplits` | src/bypass_links.rs:272-304 | the report holds every link exactly once, the fine ones among the valid and the others with their errors, each in the order given |
| `BypassLinks.ReasonsHold` | src/bypass_links.rs:319-384 | the reason a link is refused for is true of it: no prefix, too many, an anchor or prefix without an entry, a prefix that is the anchor, lies inside a broader entry or meets a default route |
| `BypassLinks.CheckedReasons` | src/bypass_links.rs:286-333 | beyond the 32nd a link is refused for its place, within the limit for a reason that is true of it |
| `BypassLinks.StrictReason` | src/bypass_links.rs:306-317 | the strict form is refused for the first link that does not pass |
| `BypassLinks.AcceptedValidates` | src/bypass_links.rs:306-317 | what the strict form returns validates again and is returned unchanged |
| `BypassLinks.CheckPrefixExact` | src/bypass_links.rs:346-384 | a prefix passes if and only if it is not the anchor, not a default route, has an entry of its own, and removing the entries inside it leaves none that captures one of its addresses |
| `BypassLinks.ValidatedIsSound` | src/bypass_links.rs:286-333 | a set validates as it is if and only if it is within the limits, canonical, and every anchor and prefix passes |
| `BypassLinks.PruneLink` | src/bypass_links.rs:448-478 | one link is pruned as specified, with the reasons for what went |
| `BypassLinks.PruneLinks` | src/bypass_links.rs:440-480 | the loop concatenates what pruning each canonical link gives |
| `BypassLinks.PruneValidates` | src/bypass_links.rs:440-480 | within the size limits the pruned set validates in full |
| `BypassLinks.PruneIdentityOnValid` | src/bypass_links.rs:440-480 | a set that validates is returned unchanged and nothing is reported |
| `BypassLinks.PruneIdempotent` | src/bypass_links.rs:440-480 | pruning again removes nothing, for sets of any size |
| `BypassLinks.PruneAccounts` | src/bypass_links.rs:432-480 | every canonical (anchor, prefix) pair is exactly once kept, reported as dropped, or under a dropped anchor |
| `BypassLinks.PruneReasonsHold` | src/bypass_links.rs:432-480 | whatever pruning reports is the link's anchor or one of its prefixes, with a reason that is true |
| `BypassLinks.CarryOverAccepted` | src/connection_cli.rs:468-497 | links that validated for the old record, pruned to the new AllowedIPs, are accepted by the daemon as sent |
| `MergeLinks.MergeLinks` | src/bypass_links.rs:409-430 | the loop folds each added link into the first stored link of its anchor, or appends it |
| `MergeLinks.MergeComposes` | src/bypass_links.rs:409-430 | merging A and then B is merging A followed by B |
| `MergeLinks.MergeIdempotent` | src/bypass_links.rs:409-430 | merging the same links again changes nothing |
| `MergeLinks.MergeIsUnion` | src/bypass_links.rs:409-430 | the prefixes of each anchor are the union of the stored and the added ones |
| `MergeLinks.MergeIsCanonical` | src/bypass_links.rs:409-430 | the result is canonical |
| `LinkSpec.ParseLinkSpec` | src/bypass_links.rs:206-239 | a spec is refused for its syntax or its first bad CIDR, or denotes the canonical link it spells out together with every CIDR whose host bits were cleared |
| `LinkSpec.FirstUnusable` | src/bypass_links.rs:214-234 | the first value behind the equals sign that is neither blank nor a CIDR is the one reported, trimmed; without one, none is |
| `LinkSpec.GivenInOrder` | src/bypass_links.rs:214-234 | otherwise the CIDRs are those of the values that are not blank, in order |
| `LinkSpec.SyntaxExactly` | src/bypass_links.rs:206-237 | a spec is refused for its syntax exactly if it has no equals sign, or a good anchor and only blanks behind it |
| `LinkSpec.ParseOfSpec` | src/bypass_links.rs:72-82 | a printed link parses to its canonical form, and what is reported as cleared is exactly what had host bits |
| `LinkSpec.RoundTrip` | src/bypass_links.rs:72-82 | a printed link parses back to itself with nothing cleared exactly if it is canonical and has a prefix |
| `LinkSpec.EmptySpecRefused` | src/bypass_links.rs:235-237 | the print of a link without prefixes is refused for its syntax |
| `LinkSpec.ParsedIsCanonical` | src/bypass_links.rs:206-239 | whatever the text, a parsed link is canonical and not empty |
| `LinkSpec.ReparseStable` | src/bypass_links.rs:206-239 | printing and parsing again what was parsed from any text changes nothing |
| `Routes.DesiredRoutes` | src/userspace_helper/macos/routes.rs:21-132 | the loops compute the routes that `Routes.TunnelTakesWhatIsAllowed` and `Routes.MissingExactly` characterise |
| `Routes.TunnelTakesWhatIsAllowed` | src/userspace_helper/macos/routes.rs:21-75 | away from connected subnets and without links, an address takes a tunnel route exactly if the tunnel has its family and an AllowedIPs entry covers it, as specific as the longest such entry, a literal default counting as one bit |
| `Routes.MissingExactly` | src/userspace_helper/macos/routes.rs:77-132 | of the routes for the entries exactly those are missing that lie within a connected subnet, or within a bypass prefix of a link whose anchor lies within one |
| `Routes.ActiveLinkFreesItsPrefixes` | src/userspace_helper/macos/routes.rs:144-179 | with validated links, no address inside a bypass prefix of an active link has a tunnel route |
| `Routes.OtherTrafficUnchanged` | src/userspace_helper/macos/routes.rs:144-179 | an address outside all active bypass prefixes takes the route it would take without links |
| `Records.StoreLanguageLawful` | src/privileged/dispatch.rs:597-614 | what the strict check accepts and what pruning leaves validates, and links that validate are all passed to the helper |
| `Records.StoreLanguageKeeps` | src/privileged/dispatch.rs:597-614 | links that validate are accepted as they are, survive a refresh and are all passed to the helper |
| `DaemonInvariant.Stable` | src/privileged/connection_store.rs:596-677 | what a thread relies on in its phase survives every change the locks of another thread permit |
| `DaemonSections.EverySectionOk` | src/privileged/dispatch.rs:239-1027 | every section keeps the invariant of the store, changes only what its locks permit, and leaves its thread entitled to its next phase |
| `DaemonSafety.StepKeeps` | src/privileged/connection_ops.rs:97-285 | one step of any thread or of the environment keeps the invariant |
| `DaemonSafety.ReachableInv` | src/privileged/connection_store.rs:638-677 | every state of every run satisfies the invariant, mutual exclusion included |
| `DaemonSafety.AcquiredHolds` | src/privileged/connection_store.rs:596-636 | taking a lock adds exactly that lock to those a thread holds |
| `DaemonGuarantees.RecordsDistinct` | src/privileged/connection_store.rs:685-768 | no two records of any reachable store share fingerprint, scope and owner, or an interface, forced adds or not |
| `DaemonGuarantees.NamesDistinct` | src/privileged/dispatch.rs:290-312 | without a forced name, names are unique per scope and owner |
| `DaemonGuarantees.NamesAreValid` | src/privileged_api.rs:494-520 | every name in a reachable store has 1 to 64 characters among lower-case letters, digits, hyphen, underscore and dot, and is no id |
| `DaemonGuarantees.CreateIsFresh` | src/privileged/connection_store.rs:638-648 | when a record is created its id names no record and never did |
| `DaemonGuarantees.StepGuarantee` | src/privileged/connection_store.rs:638-677 | every step changes the shared state only as the locks behind it permit |
| `DaemonGuarantees.NeverResurrected` | src/privileged/connection_store.rs:650-677 | a removed record never comes back in any continuation, although updates write unconditionally |
| `DaemonGuarantees.OwnershipFixed` | src/privileged/dispatch.rs:518-524 | id, scope, owner, interface and MTU override of a record are the same at both ends of every run |
| `DaemonGuarantees.AccessStillHolds` | src/privileged/dispatch.rs:518-524 | the access check made before the lock still holds of the record under the lock: the caller is root, or owns the connection and it is not global |
| `DaemonCallers.GateExactly` | src/privileged/dispatch.rs:1095-1106 | a refresh, connect, disconnect or reconnect is taken on exactly if its record loads and the caller is root, or owns it and it is not global |
| `DaemonCallers.StrangersEditDenied` | src/privileged/dispatch.rs:897-1027 | an edit by a caller who may not use a readable connection is denied and changes nothing |
| `DaemonCallers.StrangersRemoveDenied` | src/privileged/dispatch.rs:643-662 | so is a removal |
| `DaemonCallers.VettedAt` | src/privileged/dispatch.rs:518-524 | in every run a request at work goes with its caller: whoever adds a connection may use it, a gated request's caller may use its record for as long as it is stored, a removal passes the index lock only for such a caller |
| `DaemonGuarantees.RecordsSelfConsistent` | src/privileged/connection_ops.rs:87-130 | every record's text parses to its stored form and fingerprint and all its links validate, so none is dropped at connect |
| `DaemonGuarantees.NeverStale` | src/privileged/connection_ops.rs:74-94 | no request is ever answered with the stale-record error, and a mismatch only for a connection whose stat failed |
| `DaemonGuarantees.MismatchNeedsFault` | src/privileged/connection_ops.rs:144-166 | in a run whose stats all work the fingerprint-mismatch answer never occurs |
| `DaemonGuarantees.LaunchedAsStored` | src/privileged/connection_ops.rs:196-206 | a helper is launched from exactly the stored text, fingerprint and links, of a configuration with exactly one peer |
| `DaemonGuarantees.ConnectedIsCurrent` | src/privileged/connection_ops.rs:97-250 | when connect returns Ok, a socket on the interface belongs to a helper whose text has the record's current fingerprint |
| `DaemonUnreadable.ListingRefuses` | src/privileged/connection_store.rs:502-526 | while a record is unreadable no thread passes the strict listing |
| `DaemonUnreadable.UnreadableFreezes` | src/privileged/connection_store.rs:502-526 | in every run with a record unreadable throughout, nothing is created and no identity changes if no thread is past its listing |
| `DaemonUnreadable.DecidedWrites` | src/privileged/dispatch.rs:324-351 | with a thread past its listing, some run with a record unreadable throughout creates a record or changes an identity |
| `DaemonUnreadable.FrozenExactly` | src/privileged/connection_store.rs:683-768 | while a record nobody is refreshing is unreadable, identities are frozen in every continuation if and only if no thread is past its listing |
| `DaemonUnreadable.SpoiledTooLate` | src/privileged/dispatch.rs:597-635 | from every reachable state with a thread past its listing, a record that becomes unreadable just then does not stop the write |
| `DaemonUnreadable.LateAddReachable` | src/privileged/dispatch.rs:324-351 | an add past its listing beside a stored record is reachable from an empty store |
| `DaemonUnreadable.LateRefreshReachable` | src/privileged/dispatch.rs:578-635 | a refresh past its listing beside another stored record is reachable from an empty store |
| `DaemonProvenance.BeginsByForm` | src/privileged/dispatch.rs:1135-1146 | the step that gives a record its present text, or makes a global connection start by itself, belongs to a request whose form was verified exactly if it is not the write of a stale automatic copy |
| `DaemonProvenance.TextsAreApproved` | src/privileged/dispatch.rs:314-322 | in every run each record has had its present text ever since a step of a request with a verified form |
| `DaemonProvenance.LaunchesAreApproved` | src/privileged/connection_ops.rs:196-206 | every helper was launched from the text its record had at that step, and a step with a verified form wrote that text |
| `DaemonProvenance.AutomaticStartsAreApproved` | src/privileged/dispatch.rs:408-422 | each global connection that starts by itself has done so ever since some step, which had a verified form if and only if it was not a revival |
| `DaemonProvenance.RevivalIsReachable` | src/privileged/dispatch.rs:424-446 | from an empty store, a thread none of whose requests carries a form makes a global connection start by itself after that was taken back |
| `DaemonSettings.SettingSurvives` | src/privileged/dispatch.rs:897-1027 | a mode, DNS switch or link set that every waiting copy agrees with stays in every run in which nobody asks for another |
| `DaemonSettings.AcknowledgedExactly` | src/privileged/dispatch.rs:424-446 | an acknowledged setting lasts in every such run if and only if no waiting resubmission carries another value |
| `DaemonSettings.AcknowledgedCanBeLost` | src/privileged/dispatch.rs:366-450 | for each of the three settings a state with such a copy waiting is reachable from an empty store |
| `DaemonOutcomes.SectionServes` | src/privileged/dispatch.rs:239-1027 | every own section of a request either goes on with it, or answers, and a success means what it says: a removal found nothing up and an edit came from a caller who may use the connection |
| `DaemonRefusals.SectionAnswers` | src/privileged/dispatch.rs:239-1027 | every answer other than success is one the request has, is given for the reason it names in the state its step saw, and changes nothing unless a teardown failed half way |
| `DaemonRefusals.BusyExactly` | src/privileged/dispatch.rs:664-673 | with a working stat a removal is busy, and changes nothing, if and only if the connection has a marker and a socket |
| `DaemonRefusals.UnreadableStops` | src/privileged/connection_store.rs:408-425 | every section that loads a record fails on one that cannot be read, and changes nothing |
| `DaemonRefusals.LoadsExactly` | src/privileged/connection_ops.rs:87-130 | in every reachable state a connect goes on past its load exactly if the record is stored, readable and has one peer |
| `DaemonRefusals.RunningIsAdopted` | src/privileged/connection_ops.rs:131-166 | in every reachable state, the check of a connect goes on to success at once if and only if the socket in place is the marked one and the marker has the record's fingerprint |
| `DaemonRefusals.RefreshTearsDownExactly` | src/privileged/dispatch.rs:615-635 | a refresh to a changed configuration tears the tunnel down first, keeping its debug flag, exactly if it has a marker and a socket and the stat works |
| `DaemonFrames.OwnStepsFrame` | src/privileged/dispatch.rs:239-1027 | in every run, each step of a thread at work on a request changes no record, or the one the request is about as it asks, for a caller who may use it, and leaves markers, sockets and helpers of all other connections alone |
| `DaemonFrames.ReadersKeepRecords` | src/privileged/dispatch.rs:870-895 | no step of a disconnect for a session's end, a reconciliation, a reconnect or a sweep changes any record, in every interleaving and however it ends |
| `DaemonAnswers.AnswersMean` | src/privileged/dispatch.rs:239-1027 | in every run, an answer was given by a step of the answering thread that did, under its locks, what the answer vouches for: on success the record stored, replaced, removed or set as asked, the marker of a launch of exactly the stored configuration, the flag on disk and the interface quiet, for a caller who may use the connection; otherwise a refusal for the reason it names, without effect |
| `DaemonAnswers.RemovalsFindNothingUp` | src/privileged/dispatch.rs:664-684 | in a run whose stats work, a removal answered with success found no marker or no socket of the connection |
| `DaemonAnswers.ReconciliationAnswers` | src/privileged/connection_store.rs:1073-1087 | a reconciliation succeeds only if it found, with the connection's lock, the user's disconnect or a marker of a helper of the current configuration |
| `DaemonAnswers.RollbackQuiets` | src/privileged/connection_ops.rs:212-227 | from every reachable failing PostUp whose rollback works, the interface is quiet and no record or marker changed |
| `DaemonLocks.WaitsUpward` | src/privileged/connection_store.rs:596-636 | a thread waits only for a lock above every lock it holds, in the order index, connection, network |
| `DaemonLocks.NoCycle` | src/privileged/dispatch.rs:491-516 | for any number of threads and connections no chain of waiters closes |
| `DaemonLocks.SomeoneMoves` | src/privileged/connection_ops.rs:34-42 | as long as some thread has not finished, some thread can take a step |
| `DaemonAuth.AskingChangesNothing` | src/privileged/dispatch.rs:501-503 | a section that is answered with AuthRequired, or leads on to where that may happen, changes nothing |
| `DaemonAuth.OnlyAskingIsRefused` | src/privileged/dispatch.rs:571-576 | AuthRequired is never answered after the first effect of a request |
| `DaemonAuth.AuthRequiredIsTransparent` | src/privileged/dispatch.rs:239-351 | a request answered with AuthRequired can be erased from any run, with the other threads taking the same steps to the same end |
| `DaemonDisconnect.IntentRecorded` | src/privileged/dispatch.rs:870-895 | a user's disconnect has its flag on disk before anything is torn down; that no other disconnect sets it is `DaemonFrames.ReadersKeepRecords` |
| `DaemonDisconnect.IntentSurvives` | src/privileged/dispatch.rs:791-800 | the flag survives whatever other threads do until the teardown is complete |
| `DaemonDisconnect.StaysDown` | src/privileged/dispatch.rs:734-768 | from a state that is down, every run in which nothing restores the connection keeps it flagged and its interface quiet |
| `DaemonDisconnect.DisconnectStaysDown` | src/privileged/dispatch.rs:842-895 | after a completed user disconnect without a waiting stale copy, no reconciliation, refresh, reconnect, resubmission or crash brings the tunnel up |
| `DaemonIntent.IntentStands` | src/privileged/dispatch.rs:870-895 | a user's flag that no stale copy threatens stays in every run in which nothing restores the connection, whatever becomes of teardowns, refreshes and reconnects |
| `DaemonIntent.MarkedExactly` | src/privileged/dispatch.rs:870-895 | from the write of the flag on, however the teardown ends, the flag stays in every such run if and only if no waiting resubmission carries a copy from before |
| `DaemonWitness.StaleCopyLosesFlag` | src/privileged/dispatch.rs:424-446 | with a stale copy waiting, from every such state a run that restores nothing clears the flag |
| `DaemonWitness.StaleCopyUndoesDisconnect` | src/privileged/dispatch.rs:424-446 | and the next reconciliation connect starts the helper again |
| `DaemonWitness.DisconnectCanBeLost` | src/privileged/dispatch.rs:366-450 | such states are reachable from an empty store, for every language with a usable text |
| `DaemonWitness.FailedStatMismatches` | src/privileged/connection_store.rs:827-833 | from every running tunnel, a refresh whose stat fails followed by a connect is answered with a mismatch |
| `DaemonWitness.MismatchIsReachable` | src/privileged/connection_ops.rs:155-166 | that answer is reachable from an empty store |
| `DaemonProgress.AddStores` | src/privileged/dispatch.rs:239-351 | some run of an add of a new configuration alone ends with exactly what was submitted stored under a fresh id, so the success answer is not void |
| `DaemonProgress.ResubmissionUpdates` | src/privileged/dispatch.rs:366-450 | some run of a resubmission alone ends with its id and exactly the name, source path and mode it names; only a mode change to Automatic clears the flag |
| `DaemonProgress.RemoveForgets` | src/privileged/dispatch.rs:643-684 | some run of a removal with a verified form takes away that record and no other, if the connection is down; `DaemonRefusals.BusyExactly` says what happens if it is up |
| `DaemonProgress.UserConnects` | src/privileged/dispatch.rs:686-768 | some run of a user connect alone forgets an earlier disconnect and ends with a live helper of the stored configuration and a marker for it, all else unchanged |
| `DaemonProgress.RunningConnects` | src/privileged/connection_ops.rs:131-166 | some run of a connect of a tunnel that runs its current configuration is answered with success and leaves everything as it was |
| `DaemonProgress.FailedPostUpRollsBack` | src/privileged/connection_ops.rs:212-227 | some run of a failing PostUp ends with the interface quiet, records and markers unchanged |
| `DaemonProgress.UserDisconnects` | src/privileged/dispatch.rs:770-803 | some run of a user disconnect alone ends with the flag on disk, the interface quiet and the marker gone, all else unchanged |
| `DaemonProgress.SessionDisconnects` | src/privileged/dispatch.rs:770-803 | some run of a disconnect for a session's end ends with the interface quiet, the marker gone and every record as it was |
| `DaemonProgress.SweepForgets` | src/privileged/dns_sweep.rs:209-279 | some run of the sweep after a crash leaves neither socket nor marker of the dead helper |
| `DaemonProgress.RefreshRestarts` | src/privileged/dispatch.rs:578-635 | some run of a refresh of a running tunnel ends with the new text and pruned links stored and exactly that running, with the debug flag it had |
| `DaemonProgress.RefreshReplaces` | src/privileged/dispatch.rs:597-614 | some run of a refresh of a connection that is down replaces the configuration and touches no helper |
| `DaemonProgress.ReconnectRestarts` | src/privileged/dispatch.rs:842-868 | some run of a reconnect alone ends with the same record up again under the same debug flag |
| `DaemonProgress.EditStores` | src/privileged/dispatch.rs:897-1027 | some run of an edit by root ends with the setting stored as asked, or refused without effect because its links do not validate; other callers are the subject of `DaemonCallers.StrangersEditDenied` |
| `HelperProtocol.TidyStep` | src/privileged/commands.rs:210-304 | every step that meets the three conditions keeps the files in line with the helpers; `HelperWitness.TidyExactly` has the converse |
| `HelperProtocol.SpawnIsAlone` | src/privileged/commands.rs:221-243 | in every tidy run, when a helper may be started no earlier one is starting, at work or yet to report its cleanup |
| `HelperProtocol.OneHolder` | src/privileged/commands.rs:221-243 | in every tidy run, at most one helper of an interface holds network state |
| `HelperProtocol.SweepSparesLive` | src/privileged/runtime_files.rs:62-83 | in every tidy run, stale files are removed only when no helper is starting, working or cleaning up, whatever pids are reused |
| `HelperProtocol.DisconnectIsConfirmed` | src/privileged/commands.rs:318-427 | in every tidy run, a disconnect succeeds only if none of the files is there or the helper started last cleaned up and said ok, and then no helper holds network state |
| `HelperProtocol.StrangersAreLeftAlone` | src/privileged/commands.rs:329-333 | a disconnect is refused, and touches nothing, exactly if the pid on file names a live process that is not one of this program |
| `HelperProtocol.StatusIsLatest` | src/privileged/commands.rs:237-243 | in every tidy run, an "ok" on disk is that of the helper started last, which has let go of the network |
| `HelperProtocol.ConfirmedDeviceIsGone` | src/privileged/commands.rs:403-415 | in every tidy run, a disconnect that had read the latest helper's name is confirmed only once that helper's tunnel interface is gone, also when the device stop stalled |
| `HelperWitness.TidyExactly` | src/privileged/commands.rs:210-427 | from every state of a tidy run, an enabled step leaves every tidy continuation exclusive and every confirmation true if and only if it is tidy |
| `HelperWitness.LateUnlinksBreakExclusion` | src/userspace_helper/mod.rs:325-328 | from every orderly state, a spawn beside a helper that has yet to unlink its files has a tidy continuation with two helpers holding network state |
| `HelperWitness.OldStatusConfirms` | src/privileged/commands.rs:237-243 | from every orderly state, a spawn over an old "ok" has a tidy continuation in which a disconnect is confirmed while the new helper runs on |
| `HelperWitness.DeathDuringStartBreaksExclusion` | src/privileged/commands.rs:282-288 | from every orderly state, a death of the daemon during a start that is not on file has a tidy continuation with two helpers holding network state |
| `HelperWitness.LateUnlinksReachable` | src/userspace_helper/mod.rs:325-328 | a tidy run from nothing leads to a spawn beside a helper that has yet to unlink its files |
| `HelperWitness.OldStatusReachable` | src/privileged/commands.rs:237-243 | a tidy run from nothing leads to a spawn over an old "ok" that could not be unlinked |
| `HelperWitness.DeathDuringStartReachable` | src/privileged/commands.rs:282-288 | a tidy run from nothing leads to a start that is not on file, during which the daemon can die |
| `HelperEffects.HandshakeStep` | src/privileged/commands.rs:210-427 | as long as the daemon has not died during a start, every step of an orderly handshake shows itself to the daemon machine as one of its effects: an unrefused spawn, a crash, a socket that goes without a live helper, a removal of dead files, a teardown that failed half way, or nothing |
| `HelperEffects.HandshakeRun` | src/privileged/commands.rs:210-427 | every tidy run of the handshake in which the daemon does not die during a start is such a run of effects |
| `HelperEffects.ConfirmedIsBroughtDown` | src/privileged/commands.rs:318-427 | in such runs, when a disconnect is confirmed the daemon has no live helper and no socket on the interface, as `Daemon.BringDown` says |
| `StateFile.WriteAtomic` | src/state_file.rs:52-76 | at every moment, also across a power loss, the path holds its old contents or all of the new ones; after Ok the new ones, durably; it is Ok exactly if no call fails, and otherwise the temporary file is removed unless that fails too |
| `StateFile.RenamedOldOrNew` | src/state_file.rs:64-69 | the rename of a synced file adds the new contents, whole, to what a power loss may leave, and nothing else |
| `StateFile.MovedLoss` | src/state_file.rs:67-69 | a directory change keeps the old possibilities until the directory is synced |
| `StateFile.RemoveDurable` | src/state_file.rs:88-95 | it is Ok exactly if no call fails; then the file is gone, and stays gone across a power loss exactly if it was there or could not come back before |
| `StateFile.UnsyncedRemovalReturns` | src/state_file.rs:88-95 | after a removal that was not synced the old file can return |
| `Boot.ReconcileBootOnce` | src/privileged/connection_store.rs:993-1011 | a pass attempts every candidate (`Boot.CandidatesAre`) and reports success exactly if the listing worked and every attempt was answered with success |
| `Boot.CandidatesAre` | src/privileged/connection_store.rs:1063-1071 | a connection is attempted if and only if it is listed as global, automatic, not taken down by the user and not known to be up |
| `Boot.AttemptsAreDue` | src/privileged/connection_store.rs:993-1011 | in a run of the daemon, whatever a pass attempts was a readable global automatic connection without the user's flag when the pass listed the store |
| `Boot.Store.ReconcileBoot` | src/privileged/connection_store.rs:978-991 | a wake skips a boot that is marked, and marks it only after a complete pass |
| `Boot.MarkedAfterComplete` | src/privileged/connection_store.rs:978-1029 | the marker names a boot only after a complete pass in that boot, by a wake that did not skip it, whose marker write worked |
| `Boot.CompleteSettles` | src/privileged/connection_store.rs:993-1029 | after a complete pass in a run of the daemon, every connection that was due at the listing was found disconnected by the user, or up with its current configuration, by a step with its lock |
| `Boot.MarkedAfterSettled` | src/privileged/connection_store.rs:978-1087 | over any wakes, those that skip no boot being part of a run of the daemon, once the marker names a boot some wake of that boot settled every connection that was due when it listed the store |
| `Boot.ReconciledExactly` | src/privileged/connection_store.rs:978-1029 | within one boot the marker is there exactly if some pass was complete and its marker write worked |
| `Boot.OncePerBoot` | src/privileged/connection_store.rs:978-1029 | after such a pass no later wake attempts anything, and until then every wake retries its whole pass |
| `Boot.OncePerBootTime` | src/privileged/connection_store.rs:1031-1056 | for the id of any boot time, a wake attempts nothing after a settled pass and its whole pass before |
| `Boot.BootIdInjective` | src/privileged/connection_store.rs:1031-1056 | different boot times have different ids |
| `Cli.ResolveId` | src/connection_cli.rs:92-136 | an id stands for itself; a name for the caller's own connections first, then what root may see, then the global ones |
| `Records.ParseIdExactly` | src/connection_cli.rs:93-95 | a text is an id exactly as 32 hexadecimal digits, plain, hyphenated, in braces or as a URN, and all forms of the same digits are the same id |
| `Records.SameIdExactly` | src/privileged_api.rs:15-20 | two texts are the same id exactly if their 32 digits are the same, whatever their form and case |
| `Cli.NeverAmbiguous` | src/connection_cli.rs:92-136 | without forced names no text is ambiguous for a caller who is not root |
| `Cli.OwnNameResolves` | src/privileged_api.rs:494-520 | the name of an own connection never parses as an id and resolves to that connection |
| `Cli.GlobalNameResolves` | src/connection_cli.rs:79-92 | a global name resolves to itself exactly if the caller has no connection of that name |
| `Cli.SudoNameResolves` | src/connection_cli.rs:104-122 | under sudo the invoking user's name resolves to that user's connection unless root has one of that name |
| `Cli.RootNameResolves` | src/connection_cli.rs:100-122 | for root with no own connection of a name, nor the invoking user, the name resolves to the only connection that has it, whoever owns it, and is ambiguous if several have it |
| `MtuOverride.ApplyMtuOverride` | src/privileged/dispatch.rs:1223-1262 | the two loops replace every MTU line of an [Interface] section, or insert one behind the first header |
| `MtuOverride.MtuKeyExactly` | src/privileged/dispatch.rs:1236-1242 | a line assigns the MTU exactly if it is the key in any case, white space around it, an equals sign and anything |
| `MtuOverride.HeaderExactly` | src/privileged/dispatch.rs:1229-1231 | a line is an [Interface] header exactly if it is that in any case between white space |
| `MtuOverride.SectionExactly` | src/privileged/dispatch.rs:1230 | a line opens a section exactly if its first character that is not white space is a bracket |
| `MtuOverride.InInterfaceExactly` | src/privileged/dispatch.rs:1228-1235 | a place is in an [Interface] section exactly if the last section opened before it is one |
| `MtuOverride.InsertedBehindHeader` | src/privileged/dispatch.rs:1248-1261 | a text without an MTU line in an [Interface] section gets it right behind its first such header |
| `MtuOverride.MtuLineReads` | src/privileged/dispatch.rs:1239 | the written line assigns the number itself |
| `MtuOverride.LastWins` | src/privileged/dispatch.rs:1223-1262 | a second rewrite gives what it gives on the original text, exactly if no stray carriage return is left |
| `MtuOverride.EveryDirectiveReads` | src/privileged/dispatch.rs:1223-1262 | in the result every MTU line of an [Interface] section reads the override, whatever the text; which lines these are is `MtuOverride.MtuKeyExactly` and `MtuOverride.InInterfaceExactly` |
| `MtuOverride.OtherLinesKept` | src/privileged/dispatch.rs:1223-1262 | whatever the text, all other lines keep their order, and their content up to one carriage return at the end of a line |
| `MtuOverride.ApplyFinds` | src/privileged/dispatch.rs:1250-1262 | the result has an MTU line exactly if the text had one or has an [Interface] header |

## Left out

- Authorization forms, `launchctl`, `networksetup`, `ifconfig` and `sudo`: foreign calls; a form is absent, refused or verified.
- Hooks: a PreUp or PostUp hook succeeds or fails; what it runs is not modelled, and PreDown and PostDown never change the outcome.
- The configuration parser and the fingerprint: arbitrary functions; a host name that does not resolve is a parse that fails.
- Update in place of records: the handlers' sections are functions of the shared state, so aliasing between a loaded record and the file is not modelled.
- Lock and wait timeouts: a thread may stop at any point, which covers every timeout and the death of the daemon.
- DNS custody, the DNS sweep's restore and the dynamic store: only the sweep's effect on sockets, pid files and markers is modelled.
- `helper_is_live` with the start time from a custody record: the handshake uses the variant without a record; pid reuse can then only keep files that could go.
- Timestamps and JSON encoding of records: a record is saved and loaded faithfully or is unreadable.
- Removal of a record is not synced by the source (src/privileged/connection_store.rs:671-677); the daemon model has no power loss, which is the subject of `StateFile`.
- The session agent and the client side of `add --force`: their requests are ordinary requests of the machine; the order of their calls is not modelled.
- Legacy operations keyed by an interface name, status collection, log streaming, completion of `--set-link`, rendering and installation: they only add easy members.
- Socket incarnations by device, inode and change time: an incarnation is a launch number, so two sockets are never confused.
- Printing and parsing of one CIDR: `LinkSpec.Faithful` states what is used of it.
- BypassLinks.CarryOverAccepted: speaks of the AllowedIPs the client read; if another refresh replaces them before the links are set, the daemon validates against the new ones and may refuse.
- Tunnel interface names: an interface belongs to the helper that made it; a stale name that the system has given to another interface can only make a disconnect fail.
- The source path of a record: a refresh or a resubmission that names one changes it; that it survives stale copies is neither claimed nor treated in `DaemonSettings`.
- DaemonAnswers.AnswersMean: says nothing of the debug flag a refresh or reconnect restarts with; `DaemonProgress` shows runs that keep it.
- Network state that a helper leaves behind when its start fails after the routes are set: the handshake counts that helper as gone.
- UUID version and randomness: a minted id is never minted twice, as the daemon's generator is assumed to do.
