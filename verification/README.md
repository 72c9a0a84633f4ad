# Reinstate: what its core keeps

A model, in Dafny, of the decision logic at the heart of Reinstate: the key encoding, the
background daemon, synchronization between devices, the account keyring, capsule identity and
fidelity, and the bounded readers of agent configuration. `dafny verify dfyconfig.toml` checks all
of it.

## What is modelled

- **Key encoding** (`Regroup`, `Polymod`, `Bech32`, `Multiples`). Regrouping of bits, the 30-bit
  BCH checksum and the character mapping of BIP-173, on machine words. Decoding is defined
  independently and is what encoding is proved against.
- **Daemon** (`Backoff`, `DaemonLoop`, `DaemonTiming`, `Approvals`, `RotatingLog`). The event loop
  is a class whose methods are proved against a step function; the results are about every
  feasible run of it. Time advances only while the loop is idle and never past an armed deadline,
  and pushes, pulls and polls are instantaneous. The log is a class over a directory of numbered
  files.
- **Synchronization** (`SyncMachine`, `SyncSafety`, `SyncWindows`, `SyncHarm`, `SyncCommands`,
  `SyncHomes`, `SyncConvergence`, `SyncReinit`). Any number of devices, each with files, a
  configuration, saved records and at most one command at work, share lockers of immutable
  snapshots. Push, pull and conflict resolution read the configuration first, then wait for the
  home's lock, which they hold to the end; re-initialization takes no lock, and may come at any
  time. Every command is split where the user, another device or a re-initialization can come in
  between: reading the configuration, looking at a file, acting on it, recording it, saving the
  records, and, after a first push, verifying it and saving once more. `SyncCommands` has push and
  pull as loops, proved to end as the machine's steps do. Beside a device stands a history the
  program does not keep: what the user last gave each session, whether the file a command has
  looked at changed since, and which records were written when it had.
- **Keyring** (`Keyring`, `KeyringFloor`, `Fleet`, `FleetRecords`, `FleetHarm`). A keyring is a
  chain of signed headers. Storage is at the mercy of someone who can hand any keyring to any
  command and sign under any key but the account's; the control plane is honest. A command asks
  for the floor, loads the device's record, acts on a keyring and records that, and anything may
  happen in between. Nothing locks the record: each load and each save is a step of its own, and
  several commands of one device may be at it. `KeyringFloor` has one command's view as methods.
  Wraps either open or do not.
- **Capsules** (`JsonText`, `CanonicalJson`, `CapsuleIdentity`, `Fidelity`, `Validate`). The
  canonical encoding with its string escapes, identity over it, aggregation of fidelity and
  validation. `JsonText` is a reader of JSON by itself, after RFC 8259, that the encoding is
  proved against; `SortedStrings` and `Utf8` are the order of keys, by characters and by bytes.
- **Agent configuration** (`JsonStream`, `McpExtract`, `LowestKeys`). Cursor-driven extraction
  from a token stream, proved against definitions over the document, which appears only in
  specifications; and selection of the lowest keys of a table.

Hashes and revisions are taken to be injective (a session's revision is its content), signatures
to be unforgeable, root keys and snapshot identifiers to be fresh, and fork identifiers to
determine what they were derived from.

## What the code does not keep

Some properties one would expect hold only under a condition, or not at all. The table names the
lemmas that say when, or give an input that shows it.

- Doubling the backoff wraps around int64 if the maximum is above the largest doubling of the
  minimum that fits; then pushes that keep failing leave the store dirty with no timer armed.
- A change can be pushed before its own debounce is over: when a later one finds the push overdue,
  what came shortly before it goes with it.
- An edit that lands between pull's look at a session file and its restore is overwritten at once.
- An edit that lands between push's hash and its export is what an upload that succeeds saves, but
  what was hashed goes on record, and a later return to that can be overwritten. One that lands
  between keep-local's export and its hash, or between a restore and its hash, goes on record as
  what was synced, and the next pull can overwrite it. In each case the record is unfaithful until
  the session is next recorded.
- Keep-both restores over its own fork even if that was edited, and the record it leaves for a
  fork makes pushing the fork a conflict until it is resolved.
- A session in use is forked by every pull of a snapshot it has no fork of, also when it is
  current.
- Records name the locker a home is configured for only as long as no change of profile falls into
  a command, from its reading the configuration to its saving the records, or is itself cut short
  between its two saves. Otherwise the next pull can take a session for one it last synced there.
- Only re-initialization for the hosted locker keeps records, and only for the profile already
  configured; with a bucket of one's own it always starts with none, also for the same profile.
- The recorded generation and the recorded floor of a device rise only, and the keyrings it
  accepts go on from one another, as long as no command saves a record it loaded before another
  save.
- Assigning an identity to a capsule changes what would be computed again if the lineage root
  thereby becomes, or stops being, the capsule itself.
- The reasons in a fidelity report can depend on the order of inputs.
- Without an answer from the control plane a device that has not read a rollover accepts the
  keyring from before it; and so does one that has, if the save of that was undone.
- `internal/cli/keyring_floor.go` says at lines 118-127 that the floor used is the higher of the
  live answer and the recorded one; the code, and its comment at lines 161-180, use the live
  answer. The model follows the code.

## Model

| member | source | states |
|---|---|---|
| `Regroup.ConvertBits` | internal/crypto/rootkey.go:189-209 | fails exactly when some input digit is out of range; otherwise the output is the input's number regrouped: the right count of digits, each in range, denoting the same number (padded low bits zero, or the incomplete rest dropped), although the 32-bit accumulator wraps and is never masked |
| `Regroup.ValueInjective` | internal/crypto/rootkey.go:189-209 | equally many digits of one width denoting the same number are the same digits |
| `Regroup.RegroupedUnique` | internal/crypto/rootkey.go:189-209 | the regrouping of given data is unique, so the contract of ConvertBits determines its output |
| `Regroup.RoundTrip` | internal/crypto/rootkey.go:189-209 | regrouping with padding and back without it gives the original digits and nothing else, at every length |
| `Polymod.Bech32Polymod` | internal/crypto/rootkey.go:150-164 | the loop over symbols and generator bits computes the left fold of the BCH step, started at 1 |
| `Polymod.StepMultipliesByX` | internal/crypto/rootkey.go:150-164 | one step is multiplication by x and reduction by a monic degree-6 polynomial over GF(32): what the five generator words mean |
| `Polymod.FoldLinear` | internal/crypto/rootkey.go:152-164 | the checksum is linear: the fold of an exclusive or of states and words is the exclusive or of the folds |
| `Polymod.FoldRange` | internal/crypto/rootkey.go:152-164 | the state never leaves 30 bits, whatever symbols follow |
| `Polymod.FoldAppend` | internal/crypto/rootkey.go:152-164 | folding a concatenation is folding its parts one after the other |
| `Polymod.BurstNeverCancels` | internal/crypto/rootkey.go:150-164 | a word that is zero outside a window of at most six symbols folds to zero only if it is zero in the window too |
| `Polymod.BurstDetected` | internal/crypto/rootkey.go:150-164 | two words of equal length that differ only inside a window of at most six symbols have the same checksum state exactly when they are equal, at any length |
| `Bech32.HrpExpand` | internal/crypto/rootkey.go:166-176 | the loops give the expansion of the prefix, any bytes |
| `Bech32.ExpansionIs` | internal/crypto/rootkey.go:166-176 | the expansion of n characters is 2n+1 symbols: a zero in the middle, and for every character code its quotient by 32 before it and its remainder, below 32, after it |
| `Bech32.ExpansionInjective` | internal/crypto/rootkey.go:166-176 | so different prefixes have different expansions |
| `Bech32.ChecksumValid` | internal/crypto/rootkey.go:178-187 | six symbols appended to a word make its polymod 1 exactly when they are the checksum computed for it; the checksum consists of 5-bit symbols |
| `Bech32.Bech32Checksum` | internal/crypto/rootkey.go:178-187 | the loop extracts that checksum: six symbols below 32 that complete the word to polymod 1 |
| `Bech32.Bech32Encode` | internal/crypto/rootkey.go:130-146 | never fails, and its output decodes, under an independent definition of decoding, to the lower-cased prefix and exactly the data, for any bytes as prefix |
| `Bech32.DecodesUnique` | internal/crypto/rootkey.go:130-146 | a string decodes to at most one prefix and one byte string, so the encoding is injective |
| `Bech32.PublishedVector` | internal/crypto/rootkey.go:130-187 | a12uel5l, a test vector of BIP-173, is accepted as no data under the prefix a |
| `Bech32.DamageRejected` | internal/crypto/rootkey.go:130-187 | an encoded string of which at most six consecutive characters of the data part were changed, none of them into the separator, decodes to nothing |
| `Multiples.UnseenExactly` | internal/crypto/rootkey.go:150-164 | two words of equal length leave the same checksum state exactly when their difference is a multiple of the generator polynomial over GF(32), and words shorter than the checksum only when they are equal |
| `Multiples.Division` | internal/crypto/rootkey.go:150-164 | every word is a multiple of the generator polynomial plus the checksum state it leaves: the fold is the remainder of polynomial division |
| `Multiples.SevenSymbolsEscape` | internal/crypto/rootkey.go:150-164 | six is tight: seven consecutive symbols, the generator polynomial itself, are a change the checksum does not see |
| `Backoff.Compute` | internal/daemon/loop.go:447-456 | the doubling loop over int64, wrapping included, computes Delay |
| `Backoff.DelayExact` | internal/daemon/loop.go:447-456 | the delay is min(max, min doubled fails-1 times) for every number of failures exactly when max is at most the largest doubling of min that fits int64 |
| `Backoff.GrowOverflows` | internal/daemon/loop.go:447-456 | past that bound some number of failures yields a delay that wrapped to zero or below |
| `Backoff.DelayMonotone` | internal/daemon/loop.go:447-456 | within the bound delays are positive, at most max or min, and never shrink as failures mount |
| `DaemonLoop.Loop.MarkDirty` | internal/daemon/loop.go:268-273 | the state afterwards, firstDirty kept if already dirty |
| `DaemonLoop.Loop.PushDelay` | internal/daemon/loop.go:275-288 | the wait of a change, which DaemonTiming.PushTimeExactly accounts for over whole runs |
| `DaemonLoop.Loop.Push` | internal/daemon/loop.go:290-332 | the whole state after a push attempt of any outcome, and the retry delay |
| `DaemonLoop.Loop.Pull` | internal/daemon/loop.go:334-366 | the failure count and next deadline after a pull of any outcome |
| `DaemonLoop.Loop.constructor` | internal/daemon/loop.go:192-217 | the start-up pass establishes the initial state of the machine |
| `DaemonLoop.Loop.Handle` | internal/daemon/loop.go:224-265 | one round of the select statement is one step of the machine |
| `DaemonLoop.Loop.Run` | internal/daemon/loop.go:192-266 | running a sequence of events is running the machine on it |
| `DaemonLoop.StepKeepsInv` | internal/daemon/loop.go:224-332 | every enabled event keeps the invariant tying dirty flag, timers, deadlines and backoff together |
| `DaemonLoop.RunKeepsInv` | internal/daemon/loop.go:192-266 | and so does every feasible run |
| `DaemonLoop.PushDeadlineBounded` | internal/daemon/loop.go:211-332 | in every reachable idle state the push timer is armed exactly when the store is dirty, its deadline is at most max(firstDirty + MaxDebounce + Debounce, notBefore), at least notBefore, and within a fixed distance of firstDirty |
| `DaemonLoop.BetweenAttempts` | internal/daemon/loop.go:233-265 | whatever happens between two push attempts, backoff and failure count stand and a dirty store stays dirty since the same instant |
| `DaemonLoop.ChangesCannotPostpone` | internal/daemon/loop.go:268-288 | however long changes keep arriving, time does not pass the bound without a push attempt |
| `DaemonLoop.AttemptSpacing` | internal/daemon/loop.go:279-330 | after a failed attempt the next starts no earlier than its backoff and no later than the longer of the backoff and a full debounce window |
| `DaemonLoop.DefaultsNeverWrap` | internal/daemon/loop.go:101-146 | the production intervals are 3 s, 30 s, 30 s, 60 s, 5 s and 10 min, and satisfy the no-wrap condition |
| `DaemonLoop.FilledIn` | internal/daemon/loop.go:114-146 | exactly the intervals that are missing are replaced by them |
| `DaemonLoop.TimerFollowsDirtyExactly` | internal/daemon/loop.go:224-330 | over all reachable states: the push timer is armed exactly while the store is dirty, if and only if no doubling of the backoff wraps |
| `DaemonLoop.PushComesDue` | internal/daemon/loop.go:224-265 | from any state with a push armed, letting the other timers fire as they come due is a feasible run that leads to the push |
| `DaemonLoop.FailingRunStops` | internal/daemon/loop.go:248-330 | where some delay is not positive, pushes that keep failing are a feasible run to a dirty store with no timer |
| `DaemonTiming.PushTimeExactly` | internal/daemon/loop.go:192-330 | in every run from the start, every push is made at the time that what has happened so far gives: a debounce after the last change since the previous attempt, or at once if by that change something had been waiting for MaxDebounce, and in no case before the retry a failure allows; with no change since, at that retry, or a full debounce after the start |
| `DaemonTiming.DebouncedExactly` | internal/daemon/loop.go:275-288 | in every run a push comes at least a debounce after every change it takes with it, if and only if the last of them did not find the push overdue, or a failure holds the push back for so long |
| `DaemonTiming.PullTimeExactly` | internal/daemon/loop.go:334-366 | in every run every pull is made exactly one interval after a pull that ended well or in a conflict, and after one that failed exactly when the backoff for the failures in a row allows, or the shortest one while another process has the lock |
| `DaemonTiming.SteadyTimers` | internal/daemon/loop.go:211-265 | in every run the next poll is due one interval after the last, on a hosted account only, and the next heartbeat a minute after the last |
| `Approvals.Poller.Scan` | internal/daemon/loop.go:395-434 | what one list of requests adds to seen, to the current keys and to the notifications |
| `Approvals.Poller.Forget` | internal/daemon/loop.go:435-441 | deleting while ranging leaves exactly the seen keys that are current |
| `Approvals.Poller.Approvals` | internal/daemon/loop.go:370-445 | seen, listed and notified after any poll; a failed poll changes none of them |
| `Approvals.FreshOnce` | internal/daemon/loop.go:395-434 | within one poll a key is notified at most once, and exactly if it is listed and was not seen |
| `Approvals.NotifiedOncePerAppearance` | internal/daemon/loop.go:370-445 | over any run of polls a request, pairing or revocation, is notified once per maximal run of successful polls that list it, and is seen exactly if the last successful poll lists it |
| `Approvals.KeyKindsDisjoint` | internal/daemon/loop.go:396-416 | keys of pairing and of revocation requests never collide |
| `Approvals.KeysAre` | internal/daemon/loop.go:395-434 | a listing names the key of a request exactly if it lists the request |
| `Approvals.KeyInjective` | internal/daemon/loop.go:395-434 | no two requests share a key |
| `RotatingLog.Log.Rotate` | internal/daemon/log.go:79-101 | every file moves one place up, the oldest falls off, a new empty file is current |
| `RotatingLog.Log.MoveUp` | internal/daemon/log.go:84-99 | the renaming loop, oldest first, moves each copy one place up without overwriting one that is still needed |
| `RotatingLog.Log.Write` | internal/daemon/log.go:63-77 | fails exactly when closed, and then touches no file; otherwise the write is appended whole to what has been written, and the retained files stay a suffix of it |
| `RotatingLog.RotationDrops` | internal/daemon/log.go:79-101 | rotation loses nothing while there is room for a copy, and otherwise exactly the oldest file |
| `RotatingLog.RotationRetains` | internal/daemon/log.go:79-101 | after rotation the files, oldest first, are still everything written but a prefix of whole writes, with at most keep copies |
| `RotatingLog.AppendRetains` | internal/daemon/log.go:63-77 | so they are after a write, and a file exceeds max only if one single write does |
| `RotatingLog.RotationClosesFull` | internal/daemon/log.go:69-73 | a file is closed only when the next write would not have fitted |
| `LowestKeys.BoundedSortedMapKeys` | internal/capability/mcp_toml.go:98-126 | for every order the map is walked in, the sorted list of exactly the 256 smallest keys, or all; truncated exactly if there are more |
| `LowestKeys.GreatestIndex` | internal/capability/mcp_toml.go:108-116 | the scan finds a greatest retained name |
| `LowestKeys.LowestUnique` | internal/capability/mcp_toml.go:98-126 | a table has one set of lowest keys of that size |
| `LowestKeys.SelectionUnique` | internal/capability/mcp_toml.go:98-126 | two walks of one table return the same list |
| `SortedStrings.LessExactly` | internal/capability/mcp_toml.go:113-121 | the order of keys: one text is below another exactly if they agree up to a place where the one ends, or has the lower character |
| `Utf8.OrderOfBytes` | internal/capability/mcp_toml.go:113-121 | and that is the order of their UTF-8 bytes, in which Go compares strings |
| `JsonStream.TokensUnique` | internal/capability/mcp_json.go:432-474 | no document's tokens begin with another document's: at a position of a stream there starts at most one |
| `JsonStream.Decoder.ObjectKey` | internal/capability/mcp_json.go:403-416 | reads one token and succeeds exactly on a string |
| `JsonStream.Decoder.SkipValue` | internal/capability/mcp_json.go:418-430 | succeeds exactly when a whole document starts here and none of its nodes is deeper than allowed (depth 7 counted from the value skipped), and then consumes exactly its tokens |
| `JsonStream.Decoder.SkipToken` | internal/capability/mcp_json.go:432-474 | the same once the first token has been read, for every token stream, well-formed or not |
| `JsonStream.ReadBegins` | internal/capability/mcp_json.go:443-456 | the members consumed so far are how the document, if there is one, begins |
| `JsonStream.Decoder.AtEnd` | internal/capability/mcp_json.go:476-484 | succeeds exactly at the clean end of the input |
| `McpExtract.TransportOfMeans` | internal/capability/mcp_json.go:299-401 | the transport reported is the one the server's shape is certain of: all type fields recognized and equal and not at odds with command or url, or a command alone; never two, and unknown above 256 fields |
| `McpExtract.SummarySettles` | internal/capability/mcp_json.go:314-367 | the flags kept while streaming over the fields decide the same transport as that definition |
| `McpExtract.ExtractClaudeTransport` | internal/capability/mcp_json.go:299-368 | consumes exactly one server and returns its transport, failing exactly when it is no document or one of its fields is too deep to skip |
| `McpExtract.ExtractMCPServerObject` | internal/capability/mcp_json.go:262-294 | consumes exactly one object of servers and returns the first 256 declarations in order and whether there were more, failing exactly on what is not such an object |
| `McpExtract.AppendBounded` | internal/capability/mcp_json.go:240-253 | appending within the limit is bounding the concatenation, and records truncation |
| `McpExtract.BoundedJoin` | internal/capability/mcp_json.go:240-253 | bounding the parts and then the whole is bounding the whole, truncation flag included |
| `McpExtract.ExtractObjectMCPField` | internal/capability/mcp_json.go:216-260 | the first 256 declarations of all mcpServers members together, duplicates of the field included |
| `McpExtract.ExtractProjectMCP` | internal/capability/mcp_json.go:170-214 | the same over the active projects, the others being skipped |
| `McpExtract.ExtractClaudeStateMCP` | internal/capability/mcp_json.go:111-168 | the same over Claude's whole state file; accepted exactly when the input is one clean document of that shape and nothing more |
| `McpExtract.ExtractTopLevelMCP` | internal/capability/mcp_json.go:99-109 | likewise for a file whose top level holds mcpServers |
| `McpExtract.WholeInputIs` | internal/capability/mcp_json.go:99-168 | the tokens of a document, and nothing else, are accepted exactly when the document is, and are understood as that document |
| `McpExtract.WholeInputOnly` | internal/capability/mcp_json.go:99-168 | an accepted stream is the tokens of some acceptable document |
| `SyncSafety.StepKeepsInv` | internal/cli/commands_impl.go:150-1238 | every step of a device keeps what it relies on: its records, those its running command and its re-initializations hold, and the user's edits; re-initialization may fall anywhere into a command |
| `SyncSafety.LockerKeeps` | internal/sync/push.go:113-203 | whatever a device does, snapshots stay as they are and manifests name snapshots of their own sessions |
| `SyncSafety.RunKeepsInv` | internal/cli/commands_impl.go:150-1238 | every interleaving of any number of devices, commands and re-initializations keeps this for each device |
| `SyncSafety.NoLostEdits` | internal/cli/commands_impl.go:847-1224 | in every run the newest content a user gave a session is in its file or in an immutable snapshot of that session, in a locker the device has been configured for, unless a restore that went wrong overwrote it since; after a later edit the promise holds again. Re-initialization at any time changes nothing about it |
| `SyncSafety.GuardedIsSaved` | internal/cli/commands_impl.go:1114-1135 | what a guarded restore overwrites is held by a snapshot of the session, and by the one on record where pull compared |
| `SyncSafety.OverwritesOnlySynced` | internal/cli/commands_impl.go:1091-1135 | in every run, a guarded restore in place overwrites the content of the very snapshot on record, in a locker the device has been configured for |
| `SyncSafety.HeadAdvances` | internal/sync/push.go:113-203 | a step changes a session's head only to a new snapshot of that session whose parent is the old head, and only in the locker the running command works with |
| `SyncSafety.PushReplacesOnlySynced` | internal/sync/push.go:113-124 | push replaces a head only where it is the snapshot the device had on record when the push began |
| `SyncSafety.HeadsNeverForgotten` | internal/sync/push.go:285-309 | over any run, a former head of a session is an ancestor of every later head: no push replaces work it was not based on |
| `SyncSafety.ForkRecordConflicts` | internal/cli/commands_impl.go:807-814 | the record keep-both leaves for its fork makes every push of the fork a conflict, since the manifest does not list the fork |
| `SyncHomes.SavesThisLockerExactly` | internal/cli/commands_impl.go:779-931 | in every run: when a command saves the records, having loaded those of its own locker and whatever happened since, the file then names the locker the home is configured for exactly if that is still the one the command read from the configuration before it took the lock, or there are no records |
| `SyncHomes.OneLocker` | internal/cli/commands_impl.go:382-414 | records that name one locker name another exactly if there are none: so does what a command loads, or a re-initialization leaves behind |
| `SyncHomes.RecordsNameThisLocker` | internal/cli/commands_impl.go:294-414 | in every run in which no change of profile falls between a command's reading the configuration and its end, into another re-initialization, or is cut short: records name snapshots of the locker the home is configured for, and of their session, but for the moment between a re-initialization's two saves |
| `SyncHomes.RestoresOverThisLocker` | internal/cli/commands_impl.go:1091-1135 | in those runs, what pull replaces of a session it compared was last synced with the locker it restores from |
| `SyncReinit.ReinitIs` | internal/cli/commands_impl.go:328-414 | a re-initialization that nothing disturbs configures the home for the profile, with the records it had if it is for the hosted locker already configured and with none otherwise, and changes nothing else |
| `SyncReinit.SameLockerUnnoticed` | internal/cli/commands_impl.go:382-414 | so the push --all and the pull --all after a re-initialization for the same hosted locker upload, report, restore and record what they would have without it |
| `SyncReinit.OtherwiseReported` | internal/cli/commands_impl.go:382-414 | and after any other one push --all uploads exactly the sessions the locker does not have and reports all it has |
| `SyncReinit.HoldsWhatItRead` | internal/cli/commands_impl.go:357-414 | in every run, whatever else goes on: the records a re-initialization holds are those of the home at the moment it read them, if it is for the hosted locker the home was configured for when it began, and none otherwise |
| `SyncReinit.SavesWhatItRead` | internal/cli/commands_impl.go:357-414 | and those are what it saves |
| `SyncWindows.NewestEditKept` | internal/cli/commands_impl.go:847-1224 | the same promise with the newest edit read off the run itself |
| `SyncWindows.QuietLosesNothing` | internal/cli/commands_impl.go:847-1224 | in a run in which nothing falls into a window on a device none of its edits is ever lost, whatever other devices do |
| `SyncWindows.RecordsFaithfulExactly` | internal/cli/commands_impl.go:843-1559 | for each of the four commands that write a record: the window in which a change of the file makes the record unfaithful to the snapshot it names, and that nothing else does |
| `SyncWindows.RestoreOverwritesSyncedExactly` | internal/cli/commands_impl.go:1091-1196 | in every run, when pull is about to replace a session: the file equals the recorded revision unless it was touched since pull looked at it, and that revision equals the snapshot's content unless the record is tainted; provided not both fail, pull overwrites the snapshot on record exactly if both hold |
| `SyncWindows.KeepBothOverwritesSyncedExactly` | internal/cli/commands_impl.go:1521-1544 | the same for keep-both over the fork it made |
| `SyncHarm.EditUnderPull` | internal/cli/commands_impl.go:1096-1196 | a run from the start: an edit between pull's look and its restore is overwritten, and is in no snapshot |
| `SyncHarm.EditBeforePullHashes` | internal/cli/commands_impl.go:1196-1226 | a run: an edit between pull's restore and its hash goes on record, and the next pull overwrites it |
| `SyncHarm.EditBeforeKeepRemoteHashes` | internal/cli/commands_impl.go:1544-1559 | a run: the same for keep-remote |
| `SyncHarm.EditBeforeKeepLocalHashes` | internal/cli/commands_impl.go:1464-1492 | a run: an edit between keep-local's export and its hash goes on record though the export was pushed, and the next pull overwrites it |
| `SyncHarm.ReturnAfterPush` | internal/cli/commands_impl.go:843-922 | a run: after an edit between push's hash and its export, returning to the hashed content is what the next pull overwrites |
| `SyncHarm.EditedForkOverwritten` | internal/cli/commands_impl.go:1521-1544 | a run: keep-both, asked for again, overwrites the fork it made although that was edited |
| `SyncHarm.InitUnderPull` | internal/cli/commands_impl.go:779-1233 | a run from the start: a re-initialization while a pull runs leaves a record of the old locker in the new home |
| `SyncHarm.OverwrittenUnreported` | internal/cli/commands_impl.go:1091-1196 | and the next pull there overwrites the session with what somebody else put there, without a conflict |
| `SyncHarm.InitCutShort` | internal/cli/commands_impl.go:294-305 | a run: so does a re-initialization that ends between saving its configuration and saving the records |
| `SyncCommands.PushItem` | internal/cli/commands_impl.go:829-922 | what the push loop does with one session, in each of its six cases |
| `SyncCommands.PullItem` | internal/cli/commands_impl.go:1078-1135 | what the pull loop decides for one session |
| `SyncCommands.RestoreItem` | internal/cli/commands_impl.go:1137-1226 | what restoring one session leaves: file, record, list of restored sessions |
| `SyncCommands.Home.Push` | internal/cli/commands_impl.go:782-926 | the push loop over local state and shared storage ends as the machine's steps do, saving the state only if nothing failed |
| `SyncCommands.Home.Pull` | internal/cli/commands_impl.go:992-1238 | the pull loop ends as the machine's steps do, saving what it restored also when a later session fails |
| `SyncConvergence.PushRunsTheMachine` | internal/cli/commands_impl.go:782-926 | an undisturbed push is a run of the machine |
| `SyncConvergence.PullRunsTheMachine` | internal/cli/commands_impl.go:992-1238 | an undisturbed pull is a run of the machine |
| `SyncConvergence.PullSettles` | internal/cli/commands_impl.go:1078-1230 | a pull --all that does not fail leaves every listed session it does not fork settled (here, and recorded against the listed snapshot) or reported |
| `SyncConvergence.SettledPullExactly` | internal/cli/commands_impl.go:1078-1230 | for settled sessions, whichever are in use: pull --all restores none in place, reports none and changes no record or existing file; it fails exactly if it cannot fork one in use, and otherwise leaves the device as it was exactly if each of those already has its fork |
| `SyncConvergence.SecondPullExactly` | internal/cli/commands_impl.go:1078-1230 | so does every second pull --all of what the first neither forked nor reported, whatever was edited meanwhile and whichever sessions are in use by then |
| `SyncConvergence.PushSettles` | internal/cli/commands_impl.go:829-922 | for every session, what a whole push --all comes to: uploaded, reported, or untouched, with its record and head |
| `SyncConvergence.PushOutcome` | internal/cli/commands_impl.go:847-922 | push --all uploads exactly the sessions new on both sides and those edited since they were synced with the listed snapshot, and reports exactly those whose head is not the one last synced |
| `SyncConvergence.PushAfterPull` | internal/cli/commands_impl.go:847-1224 | after a clean pull --all and any edits: push --all uploads exactly the sessions absent from the manifest and never synced, and the edited ones |
| `SyncConvergence.SecondPushDoesNothing` | internal/cli/commands_impl.go:847-855 | pushing again what was pushed without conflict uploads nothing |
| `SyncConvergence.VerifyingChangesNothing` | internal/cli/verify.go:273-306 | the verification after a first push keeps the lock to its end and, undisturbed, leaves the home as the push does |
| `SyncConvergence.PullKeepsProgress` | internal/cli/commands_impl.go:1067-1076 | whether or not pull gets to its end, everything it restored is on record |
| `SyncConvergence.FailedPushRecordsNothing` | internal/cli/commands_impl.go:906-926 | a push that fails on anything but a conflict saves nothing |
| `SyncConvergence.LostRecordConflicts` | internal/cli/commands_impl.go:879-926 | a session such a push had uploaded is a conflict for the next push, and its head stays |
| `SyncConvergence.CrashFreesTheLock` | internal/cli/commands_impl.go:779-788 | a command that dies leaves files and records as they are, and the lock to the next |
| `SyncConvergence.KeepLocalSettles` | internal/cli/commands_impl.go:1437-1493 | keep-local puts the local version on top of the head and leaves the session as just synced, every other session alone |
| `SyncConvergence.KeepRemoteSettles` | internal/cli/commands_impl.go:1495-1555 | keep-remote leaves the session as just synced with the head, every other session alone |
| `SyncConvergence.KeepBothForks` | internal/cli/commands_impl.go:1495-1555 | keep-both leaves the session and its record alone and puts the head beside it, recorded under the fork |
| `Keyring.CheckExactly` | internal/cli/account.go:827-855 | the check refuses exactly the keyrings that may not be acted on (signatures, pinned key, decided floor, recorded generation and its root key), and for a reason that holds |
| `Keyring.CheckAccepts` | internal/cli/account.go:827-855 | the same spelled out for a device with a record |
| `Keyring.OneGenerationPinsHistory` | internal/keyring/keyring.go:441-510 | two authentic keyrings of one account that agree on one generation agree on every earlier one |
| `Keyring.RecipientNamesGeneration` | internal/keyring/keyring.go:441-469 | within one account a root key belongs to one generation number |
| `Keyring.RolledVerifies` | internal/keyring/keyring.go:953-1043 | rolling over keeps all generations, and appends one under the fresh root key and makes it current; the result verifies exactly when the generation rolled over was the last |
| `KeyringFloor.Home.Remember` | internal/cli/keyring_floor.go:204-229 | the recorded floor only rises, only where there is a record, and only for a decided floor |
| `KeyringFloor.Home.LoadAnchor` | internal/cli/account.go:721-744 | the anchor of a command: the floor as answered, and the record; none exactly if asking failed |
| `KeyringFloor.Home.Observe` | internal/cli/account.go:870-902 | succeeds exactly if the record allows the keyring and then moves to it; otherwise the record stays and the refusal names something that is wrong |
| `KeyringFloor.Home.Use` | internal/cli/account.go:645-670 | accepts exactly if the wraps open and both the anchor and the record as it is by then allow the keyring; acceptance reaches floor and recorded generation, a refusal leaves the record alone |
| `KeyringFloor.Home.Revoke` | internal/cli/pairing.go:693-803 | the record moves exactly if the rollover was made and the record allows its outcome; the floor never falls, and rises only after that, to the recorded generation |
| `KeyringFloor.Home.Join` | internal/cli/pairing.go:162-241 | enrols exactly if approval, relayed root key and a keyring that passes the floor agree; the floor goes into the new record |
| `KeyringFloor.Home.Recover` | internal/cli/account.go:295-405 | enrols exactly if a keyring signed under the derived key passes the floor, and pins that key |
| `Fleet.StepKeepsInv` | internal/cli/account.go:827-902 | every step of every device, honest or handed an old keyring, and however loads and saves of one record interleave, keeps signatures fresh, records valid, and every record about to be saved equal to the one loaded but for what it is saved for |
| `Fleet.RunKeepsInv` | internal/cli/account.go:827-902 | so does every run |
| `Fleet.FloorNeverFalls` | internal/cli/keyring_floor.go:231-265 | the account-wide floor is monotone over every run |
| `Fleet.AnswerStands` | internal/cli/keyring_floor.go:131-181 | what a command was told stands until it ends, whatever others do meanwhile |
| `Fleet.NoRollbackAnywhere` | internal/cli/keyring_floor.go:131-181 | once the floor has reached a generation, no command on any device that asks afterwards and is answered accepts a keyring below it, joining and recovering devices and those that never read it included, whatever happens between the answer and the keyring, lost saves of the record included |
| `Fleet.RevocationReachesEveryone` | internal/cli/pairing.go:704-803 | after a revocation that recorded the rollover, made then or found made already, and told the control plane, every such command accepts only keyrings that have reached the generation it left |
| `FleetRecords.UndisturbedIsFresh` | internal/cli/account.go:879-902 | a command's save of the record is fresh if no other save or removal of that device's record comes between its load and that |
| `FleetRecords.SaveUndoesExactly` | internal/cli/keyring_floor.go:208-229 | what a save undoes of what others recorded since the load: the recorded generation falls exactly if the one written is lower, which for a floor is the one loaded, and the recorded floor likewise; a save of an unchanged record lowers neither |
| `FleetRecords.FreshKeepsHistory` | internal/cli/account.go:879-902 | in a run whose saves on a device are fresh, its record is at all times the last of the keyrings it accepted and the highest of the floors it recorded since it enrolled |
| `FleetRecords.AcceptedHistoryIsAppendOnly` | internal/cli/account.go:827-902 | in such a run, between enrolments, each keyring a device accepts still holds unchanged every generation of those it accepted before, and the recorded generation never falls |
| `FleetRecords.FallbackIsHighestConfirmed` | internal/cli/keyring_floor.go:183-229 | in such a run the fallback floor is the highest floor confirmed and recorded since enrolment |
| `FleetRecords.PinnedKeyStays` | internal/cli/account.go:870-902 | no step changes the account key a record pins but a save for another enrolment, or of a record that has been replaced since it was loaded |
| `FleetRecords.RecoveryPinsAccount` | internal/cli/account.go:295-405 | what enrolling from the recovery code saves pins the account's own key |
| `FleetRecords.UnansweredAcceptsExactly` | internal/cli/keyring_floor.go:147-153 | in every run, exactly which keyrings a command accepts that got no answer: signed throughout, reaching the floor the record held when it asked, and going on from the record as it was when the command loaded it and as it is now, whatever moved it in between; that floor is the highest confirmed by then where saves were fresh |
| `FleetRecords.RecordNowSuffices` | internal/cli/account.go:879-902 | of those two records the one now is enough where the pinned key is the account's, saves are fresh and the device has not enrolled anew: what goes on from it goes on from the earlier one |
| `FleetRecords.OldKeyringGetsThroughExactly` | internal/cli/keyring_floor.go:147-153 | in every run and whatever a command was told and loaded: it can be made to accept a keyring below the account's floor exactly if the floor it was told, the generation it loaded and the one on record now are all below it and some signed keyring goes on from both records and reaches the floor it was told |
| `FleetRecords.RecordedKeyringAdmitted` | internal/cli/account.go:879-902 | such a keyring exists for a command that loaded the record as it is, where saves are fresh and the floor it was told does not exceed the recorded generation |
| `FleetRecords.AskedAlone` | internal/cli/account.go:721-744 | a command on its own gets the record and the anchor that KeyringFloor.Home.LoadAnchor says |
| `FleetRecords.UsedAlone` | internal/cli/account.go:645-670 | and leaves the record that KeyringFloor.Home.Use says |
| `FleetRecords.EnrolledAlone` | internal/cli/pairing.go:162-241 | an enrolment on its own leaves the record that KeyringFloor.Home.Join and Recover say |
| `FleetRecords.RevokedAlone` | internal/cli/pairing.go:693-803 | a revocation on its own leaves the record and the floor that KeyringFloor.Home.Revoke says |
| `FleetHarm.OldKeyringGetsThroughInARun` | internal/cli/pairing.go:704-803 | a run of two devices from the account's creation in which an unanswered command accepts the keyring from before a revocation |
| `FleetHarm.GenerationFallsBack` | internal/cli/keyring_floor.go:208-229 | a run: a floor is remembered while a device is revoked, and the recorded generation falls back |
| `FleetHarm.OldKeyringAcceptedAgain` | internal/cli/account.go:827-902 | and the next command of that device, asking without an answer, accepts the keyring from before the revocation it had itself made |
| `FleetHarm.FloorFallsBack` | internal/cli/account.go:879-902 | a run: the other way round, a confirmed and recorded floor is lost |
| `CanonicalJson.EscapeAllIsSafe` | internal/capsule/canonical.go:107-113 | a reader that only skips what follows a backslash finds the closing quote just after the escaped string, which holds no control character, line separator or character that means something to HTML |
| `CanonicalJson.UnescapeEscape` | internal/capsule/canonical.go:107-113 | a reader of RFC 8259 strings reads every escape back, whatever follows |
| `CanonicalJson.TextReads` | internal/capsule/canonical.go:107-113 | and finds in a quoted string just the string |
| `CanonicalJson.EscapeAllUnique` | internal/capsule/canonical.go:107-113 | from an opening quote on, where the string ends and what it is are determined |
| `CanonicalJson.LiteralUnique` | internal/capsule/canonical.go:114-116 | a number literal followed by a separator determines where it ends |
| `CanonicalJson.PrintReads` | internal/capsule/canonical.go:96-160 | a reader of RFC 8259 text, defined by itself, finds in the encoding of a document followed by anything that may follow a value just that document, and leaves just what follows |
| `CanonicalJson.DocumentReads` | internal/capsule/canonical.go:96-160 | so a whole encoding is a JSON text and says what was encoded |
| `CanonicalJson.PrintUnique` | internal/capsule/canonical.go:96-160 | from an encoding followed by nothing or a separator the document and the end of its encoding can be told: the encoding is uniquely decodable |
| `CanonicalJson.PrintInjective` | internal/capsule/canonical.go:96-160 | documents have equal encodings exactly when they are equal |
| `SortedStrings.KeysInOrder` | internal/capsule/canonical.go:134-138 | the keys of a map taken in any order and sorted: one list for one map |
| `CanonicalJson.WriteCanonical` | internal/capsule/canonical.go:96-160 | appends the encoding, whatever order maps are walked in, and changes nothing before it |
| `CapsuleIdentity.NormalizeCapsule` | internal/capsule/canonical.go:85-94 | times in the caller's own events are truncated to seconds in place, absent times left alone |
| `CapsuleIdentity.TruncatedIs` | internal/capsule/canonical.go:85-94 | a time is in UTC afterwards, at the last whole second not after it; no time stays no time |
| `CapsuleIdentity.CanonicalBytes` | internal/capsule/canonical.go:25-46 | the encoding of the normalized capsule or the path refusal; the caller's events are normalized either way |
| `CapsuleIdentity.BytesSay` | internal/capsule/canonical.go:25-46 | the canonical bytes are JSON, in which a reader finds the identity, the lineage root, the projection's sizes and digests (left out when empty) and the time of each event (left out when absent), each under its name |
| `CapsuleIdentity.ComputeID` | internal/capsule/canonical.go:54-69 | the digest of the preimage with the derived fields left out |
| `CapsuleIdentity.EncodingFirstKeepsID` | internal/capsule/canonical.go:25-94 | encoding first, which truncates shared times, changes neither encoding nor identity |
| `CapsuleIdentity.DerivedFieldsKeepID` | internal/capsule/canonical.go:59-62 | nor does filling in the projection's sizes and hashes |
| `CapsuleIdentity.SameIDExactly` | internal/capsule/canonical.go:47-69 | two capsules have the same identity exactly when they agree on every serialized field, times to the second, the excluded fields aside |
| `CapsuleIdentity.SettingIDExactly` | internal/capsule/canonical.go:54-58 | assigning an identity keeps what was computed exactly when it does not change whether the lineage root is the capsule itself or nothing |
| `CapsuleIdentity.IdentityIsFixed` | internal/capsule/canonical.go:47-58 | a capsule given its own identity, alone, as its lineage root, or beside an older root, still has it |
| `CapsuleIdentity.DocumentTellsApart` | internal/capsule/canonical.go:25-46 | capsules, derived fields aside, whose normalized documents are equal agree on every serialized field |
| `Fidelity.AggregateFidelity` | internal/capsule/fidelity.go:16-82 | one component per name, strictly sorted, each with the count and size (64-bit sums, which wrap) and worst class of the accepted inputs of its name; the worst of all overall |
| `Fidelity.MergeKeeps` | internal/capsule/fidelity.go:25-43 | one more input keeps the table of aggregates right, accepted or not |
| `Fidelity.EventBytes` | internal/capsule/fidelity.go:160-166 | the size of an event is that of its texts, as a 64-bit sum |
| `Fidelity.WorstOfComponents` | internal/capsule/fidelity.go:168-179 | a class some component has and none is worse than; exact if there is none |
| `Fidelity.WorseExactly` | internal/capsule/fidelity.go:96-123 | one class is worse than another exactly if it comes later in: exact, normalized, summarized, referenced, omitted |
| `Fidelity.CountedTogether` | internal/capsule/fidelity.go:125-158 | events of known kinds are counted together exactly if they are of one kind and, if messages, of one actor or both of none known |
| `Fidelity.PassedOver` | internal/capsule/fidelity.go:25-43 | an input is merged exactly if it has a name and one of the five classes |
| `Fidelity.OrderDoesNotMatter` | internal/capsule/fidelity.go:16-82 | reports of the same inputs in any order agree on names, classes, counts, sizes and overall class |
| `Fidelity.ReasonsAgreeExactly` | internal/capsule/fidelity.go:32-41 | the reason reported for a name is the same for every order of the inputs exactly if the worst of its inputs all give the same reason, or none of its inputs gives any |
| `Fidelity.TwoReasonsAgreeExactly` | internal/capsule/fidelity.go:32-41 | for two inputs: exactly if they give the same reason or the strictly worse one gives one |
| `Fidelity.TotalsConserved` | internal/capsule/fidelity.go:16-82 | counts and sizes reported add up to those of the accepted inputs: modulo 2^64, and exactly if no sum reported is out of range |
| `Fidelity.AggregatingAgain` | internal/capsule/fidelity.go:16-82 | aggregating a report's components returns the report, reasons included |
| `Validate.Validate` | internal/capsule/validate.go:26-112 | accepts exactly the capsules that meet the contract, the size of their canonical encoding included; and truncates the times of the caller's own events exactly if all but the encoding was in order |
| `Validate.ValidatedStays` | internal/capsule/validate.go:104-111 | so validating twice is validating once |
| `Validate.TaskFits` | internal/capsule/validate.go:114-159 | accepts exactly tasks none of whose texts, alone or in a list, is too long |
| `Validate.FidelityFits` | internal/capsule/validate.go:30-41 | accepts exactly reports whose mode and classes are known and whose overall class is the worst |
| `Validate.EventsFit` | internal/capsule/validate.go:55-103 | accepts exactly events with their own bounds kept, identities distinct, order not falling, and every tool result answering some call |
| `Validate.CallIds` | internal/capsule/validate.go:55-60 | the named calls of the conversation, wherever they stand |
| `Validate.CountFileReferences` | internal/capsule/validate.go:162-174 | the files the workspace and the task list plus the blocks that carry or are one |
| `Validate.AggregatedReportPasses` | internal/capsule/validate.go:33-41 | an aggregated report passes the fidelity checks, and with another overall class it would not |

## Left out

- Bech32.Bech32Encode: lower-casing is a parameter, of which only what it does to ASCII is known; strings are byte by byte.
- Bech32.DamageRejected: says nothing about damage that writes a separator, which moves the border between prefix and data.
- Polymod.Bech32Polymod: symbols are 5-bit values, as its only callers supply; arbitrary bytes would leave 30 bits.
- DaemonLoop.Loop.Run: select fairness, dropped events when the channel is full, panics turned into errors, elapsed time of syncs, the status file and log lines are not modelled; `time.Time` differences do not saturate.
- RotatingLog.Log.Write: errors of the file system and partial writes are not modelled, and no other process touches the files.
- JsonStream.Decoder.SkipValue: cancellation of the context is not modelled; the tokens are those the standard decoder yields before any fault in the input.
- McpExtract.ExtractClaudeStateMCP: whether a project is the active one is a parameter; sorting and merging of equal names after extraction is not modelled.
- LowestKeys.BoundedSortedMapKeys: cancellation is not modelled.
- SyncCommands.Home.Push: dry runs, adapters, discovery, limits and the retry loop of the manifest update are not modelled; the update is one compare-and-swap, which may leave an orphan snapshot in the machine and leaves none here.
- SyncCommands.Home.Pull: which sessions are in use is a parameter, so the policy deciding it (planSessionRestore, requireSessionRestorable) is not modelled; paths and backups of replaced files are not modelled.
- SyncHomes.RecordsNameThisLocker: migration, which changes the configuration under the lock and keeps the records, is not modelled.
- SyncSafety.NoLostEdits: backups kept aside by a restore are not counted as keeping an edit.
- KeyringFloor.Home.Revoke: matching of devices, the recovery wrap and the retries of the keyring's own compare-and-swap are not modelled.
- FleetRecords.AcceptedHistoryIsAppendOnly: for records that pin the account's own key; a device that joined has the key of the keyring it joined through.
- CanonicalJson.WriteCanonical: strings are sequences of Unicode scalar values, so the replacement of invalid bytes is not modelled; nor are float64 leaves, which decoding with json.Number never produces.
- CapsuleIdentity.CanonicalBytes: of the serialized fields only those the identity treats specially are told apart, the others are documents; which of those may not hold an absolute path is a parameter, as are the digest and the text of a time.
- Fidelity.AggregateFidelity: int is 64 bits wide; texts are valid Unicode, whose bytes are counted.
- Validate.Validate: the capsule checked and the capsule encoded are two views of one, whose fields are not tied to each other; which violation is reported first is not modelled.
- Event identities, redaction, transcripts, the handoff pipeline and the session index.
- collector.inventory: sorting compares names before states while duplicates are looked for among neighbours with case folded, so no case-insensitive uniqueness is claimed.
- inferCodexTransport and the TOML hooks: a decision on flags that adds nothing to the JSON side.
- Command-line wiring, prompts, output, S3, the control plane's own code, OS keyrings, age, HKDF, SHA-256, scrypt, file watching, service managers, permissions.
