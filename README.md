# OMNIVERSE OS core, modelled in Dafny

OMNIVERSE OS is a desktop environment that runs in a browser. Its kernel has five parts:

- a virtual file system of path-addressed records with owner/list/wildcard permissions and a path cache;
- a process manager with a lifecycle state machine, cascading kills and event handlers;
- an app and window manager with z-ordering and focus;
- a wallet/currency economy with transfers and minting;
- AI agents with memories, goals, skills and a keyword chat responder.

A kernel object boots and shuts all of this down. A small Node server keeps collaboration sessions. A few apps hold their rules in component state: Tic Tac Toe, Snake, the calculator and the terminal. A storage service builds Cloudinary delivery URLs.

The model keeps the source's own form for each part:

- **Objects with state are classes.** `VirtualFileSystem`, `ProcessManager`, `AppManager`, `AppRegistry`, `EconomySystem`, `AISystem`, `KernelState`, `SessionTable`, `Game`, `SnakeGame`, `CalculatorState` and `TerminalState` keep the source's fields. Their methods have `modifies` clauses and state every new field value.
- **Each stateful method has a specification function.** `CreateEffect`, `WriteEffect`, `MoveEffect`, `ListResult`, `KillEffect`, `KillEachEffect`, `Transferred`, `Cleaned`, `Advance`, `CalculateWinner` and others describe the result or the new state. Lemmas prove what the source promises about those functions.
- **Pure code is functions.** This covers path joining, permission checks, the winner scan, the response generator, the URL builder and the like.
- **The store is a map per collection.** The IndexedDB store is a value map per collection, so every read hands out a copy, as IndexedDB does.
- **Nothing outside the program runs inside it.** Clocks, `Math.random`, `uuidv4`, `eval`, `parseFloat` and `String` on numbers are parameters, fresh-id counters or host functions.

Several behaviours of the code as written are kept and proved as lemmas:

- initialize cannot create the root on an empty store;
- the destination parent of a move or copy loses its leading slash;
- a self-transfer creates money;
- `chat` loses the memories it has just saved;
- two arrow keys within one Snake tick reverse the snake.

## Model

| member | source | states |
|---|---|---|
| VfsPaths.JoinPathNormalized | src/kernel/filesystem.ts:428-433 | every `joinPath` result is non-empty, has no `//` and no trailing `/` except the root |
| VfsPaths.JoinPathUnder | src/kernel/filesystem.ts:428-433 | joining a simple name under an absolute path appends `/name`, without doubling the root's slash |
| VfsPaths.RootRecordPath | src/kernel/filesystem.ts:28-32 | the root record that initialize creates, `createDirectory('/', 'root')`, gets the path `/root`, not `/` |
| VfsPaths.SplitPathSegments | src/kernel/filesystem.ts:435-437 | `splitPath` yields non-empty segments without slashes |
| VfsPaths.SplitJoinPath | src/kernel/filesystem.ts:435-437 | splitting a joined path gives the parent's segments followed by the name |
| VfsPaths.DestParentShape | src/kernel/filesystem.ts:291-298 | a destination with at most one segment has parent `/`; with two or more the parent path lacks the leading `/` |
| VfsPaths.DestNameShape | src/kernel/filesystem.ts:291-298 | the destination name is the last segment, non-empty and slash-free when there is one |
| VfsPermissions.DefaultPermissionsOwnerOnly | src/kernel/filesystem.ts:398-406 | default permissions admit their owner to read, write and execute and no other user (unless the owner id is `*`) |
| VfsPermissions.PublicIsReadOnlyForOthers | src/kernel/filesystem.ts:376-389 | a public node owned by someone else is readable but not writable unless the user is listed |
| VfsPermissions.OwnerMayWriteAndExecute | src/kernel/filesystem.ts:384-396 | the owner may always read, write and execute, whatever the lists say |
| VfsPermissions.RootPermissionRule | src/kernel/filesystem.ts:34-41 | the root's permissions: every user reads and executes, only `system` writes |
| VfsPermissions.SystemDirPermissionRule | src/kernel/filesystem.ts:44-53 | `/system`'s permissions: every user reads, only `system` writes or executes |
| FileSystem.PathIndex | src/kernel/storage.ts:146-149 | the by-path index finds a record with the path, the least key among several, and nothing exactly when no record has it |
| FileSystem.VirtualFileSystem.GetByPath | src/kernel/filesystem.ts:412-426 | the cached record for the path, else the store's by-path record, which is then cached under the path |
| FileSystem.VirtualFileSystem.Initialize | src/kernel/filesystem.ts:24-55 | when `/` resolves nothing is created; when it does not, the root create looks for `/` as its parent and fails before any directory is made |
| FileSystem.CreateRule | src/kernel/filesystem.ts:61-107 | a create fails exactly when the parent does not resolve to a writable directory or the joined path already resolves; on success the record has the joined path and the parent's id, and its id is appended to the parent's children; nothing else changes |
| FileSystem.VirtualFileSystem.CreateDirectory | src/kernel/filesystem.ts:61-107 | the result, store and cache are those of `CreateEffect` for a directory; the id counter moves only on success |
| FileSystem.VirtualFileSystem.CreateFile | src/kernel/filesystem.ts:142-195 | the same for a file with its content, MIME type and content size |
| FileSystem.CreateKeepsCoherent | src/kernel/filesystem.ts:61-107 | a create keeps the cache coherent with the store and keeps every existing record's name and permissions |
| FileSystem.CreateKeepsAbsolute | src/kernel/filesystem.ts:61-107 | a create under a resolving parent keeps every path starting at the root |
| FileSystem.VirtualFileSystem.ListDirectory | src/kernel/filesystem.ts:109-136 | the result is `ListResult` over the parent lookup, and the cache is the cache after that lookup |
| FileSystem.ListingShape | src/kernel/filesystem.ts:109-136 | a listing holds exactly the stored children the user may read, directories ahead of files, names ascending within each group |
| FileSystem.DirsFirstByNameIsTotalPreorder | src/kernel/filesystem.ts:124-133 | the listing comparator is a total preorder, so the stable sort orders the listing |
| FileSystem.VirtualFileSystem.ReadFile | src/kernel/filesystem.ts:197-209 | a missing path, a directory or an unreadable record is the matching error, otherwise the content |
| FileSystem.VirtualFileSystem.WriteFile | src/kernel/filesystem.ts:211-241 | the result, store and cache are those of `WriteEffect` |
| FileSystem.WriteThenRead | src/kernel/filesystem.ts:211-241 | a write succeeds exactly on a writable file; afterwards the path reads back the content (old text followed by new when appending text) with its size; only that record changes |
| FileSystem.VirtualFileSystem.DeleteFile | src/kernel/filesystem.ts:243-278 | a missing path is `File not found` and an unwritable record `Permission denied`, with nothing removed; deleting a writable file always succeeds, removes exactly that record and filters its id out of its parent's children; on success the record has left the store and the cache, and its parent no longer lists it; any delete only removes records and filters children, lists nothing new, and in a coherent store removes only the record and what is reachable from it through `children`, filters an id only out of its own parent, and on success has removed the record's children |
| FileSystem.VirtualFileSystem.DeleteFound | src/kernel/filesystem.ts:250-277 | once found and permitted: a directory's children are deleted first and a failure there is passed on; then the record is removed from the store, the cache and its parent's children |
| FileSystem.RemovalWithin | src/kernel/filesystem.ts:262-277 | removing the record after its children keeps the removals within any set closed under the listed children that holds the record |
| FileSystem.UnlinkFiltersParent | src/kernel/filesystem.ts:262-277 | filtering the removed record out of its parent drops no other id from any list |
| FileSystem.FilteredFromParentsTransitive | src/kernel/filesystem.ts:250-277 | an id dropped from a list over two steps was dropped by one of them, so it belongs to that parent |
| FileSystem.DescendantsGone | src/kernel/filesystem.ts:250-259 | when deleted records take their children with them, every record descending through `children` is deleted |
| FileSystem.UnlinkPrunes | src/kernel/filesystem.ts:262-277 | removing one record and filtering it out of its parent's children prunes the store, leaving siblings untouched |
| FileSystem.VirtualFileSystem.MoveFile | src/kernel/filesystem.ts:280-330 | the result, store and cache are those of `MoveEffect` |
| FileSystem.MoveFrame | src/kernel/filesystem.ts:305-329 | a successful move rewrites only the moved record and the two parents' children; descendants keep their old paths |
| FileSystem.MoveDeepDestinationFails | src/kernel/filesystem.ts:291-298 | a destination two or more segments deep has a parent path without the leading `/`, so such a move always fails |
| FileSystem.RenameInPlaceListsTwice | src/kernel/filesystem.ts:310-326 | renaming within one directory pushes the source's id onto the parent copy read before the filter, so the parent lists it twice |
| FileSystem.MoveUnderItselfMakesCycle | src/kernel/filesystem.ts:305-329 | moving a directory under itself makes it its own parent and child |
| FileSystem.VirtualFileSystem.CopyFile | src/kernel/filesystem.ts:332-370 | a missing or unreadable source is the error; a file is copied by one create at the destination with its kind and permissions; a directory is first created empty with its permissions, a failed create is returned with nothing stored, and when the source then lists nothing the copy is that create alone; a copy to a destination two segments deep, or of a directory with readable children, always fails |
| FileSystem.CopyDirectoryOutcome | src/kernel/filesystem.ts:343-367 | a destination two segments deep fails; a success is a directory at the joined destination path with the given permissions; a tidy store whose source lists a readable child fails for an absolute destination |
| FileSystem.EmptyDirectoryCopiesNoChild | src/kernel/filesystem.ts:343-367 | a coherent source directory listing nothing readable still lists nothing after the create of its copy elsewhere |
| FileSystem.CreateLeavesOthers | src/kernel/filesystem.ts:61-107 | a successful create keeps every other cached path and every other record's permissions |
| FileSystem.CopyDirectoryFacts | src/kernel/filesystem.ts:343-367 | the directory create of a copy fails when the destination is two segments deep |
| FileSystem.ChildCopyDestination | src/kernel/filesystem.ts:360-366 | a listed child's copy destination has one more segment, so its parent path never starts at the root |
| FileSystem.VirtualFileSystem.GetStats | src/kernel/filesystem.ts:439-451 | the counts of file and directory records and the sum of their sizes |
| FileSystem.CountBelowIsCardinality | src/kernel/filesystem.ts:439-451 | the counting loop's result is the number of stored file (or directory) records below the id bound |
| FileSystem.VirtualFileSystem.SetCurrentUser | src/kernel/filesystem.ts:453-455 | only the current user changes |
| FileSystem.VirtualFileSystem.ClearCache | src/kernel/filesystem.ts:457-459 | the cache is empty and the store unchanged |
| Processes.ProcessManager.Initialize | src/kernel/process.ts:24-37 | every stored record that was running is rewritten as crashed; the live table is not loaded |
| Processes.ReclassifiedShape | src/kernel/process.ts:24-37 | after initialize no stored record is running; only the running records' status changes, and a second pass changes nothing |
| Processes.ProcessManager.Spawn | src/kernel/process.ts:43-77 | the new record (running, priority 5, given or null parent, default metadata overridden by the given fields) is added last to the table and saved, and the `spawn` handlers are called |
| Processes.SpawnAddsLastChild | src/kernel/process.ts:43-77 | a freshly spawned child is the last of its parent's children |
| Processes.ProcessManager.Kill | src/kernel/process.ts:79-102 | the result and the new state are `KillEffect`: an unknown pid fails; children are killed first, then the target is saved as stopped and removed |
| Processes.KillFacts | src/kernel/process.ts:79-102 | a kill removes only the target and its descendants, each saved as stopped; on success the target and every descendant are gone and nothing is orphaned |
| Processes.ProcessManager.Pause | src/kernel/process.ts:104-118 | an unknown pid or a process not running is the error, otherwise the record is paused, saved and the handlers called |
| Processes.ProcessManager.Resume | src/kernel/process.ts:120-134 | an unknown pid or a process not paused is the error, otherwise it runs again |
| Processes.ProcessManager.Crash | src/kernel/process.ts:136-154 | any live process becomes crashed with the error recorded |
| Processes.StepsFollowMachine | src/kernel/process.ts:104-154 | pause, resume and crash follow the status machine and change nothing else of the record but the crash info |
| Processes.PauseResumeRoundTrip | src/kernel/process.ts:104-134 | a pause followed by a resume gives back the record, and vice versa |
| Processes.NoRepeatedPause | src/kernel/process.ts:104-134 | a paused process cannot be paused again, nor a running one resumed |
| Processes.ClampPriority | src/kernel/process.ts:202-211 | the priority is clamped into [0, 10] and kept when already inside |
| Processes.ProcessManager.SetPriority | src/kernel/process.ts:202-211 | an unknown pid is an error, otherwise the clamped priority is saved |
| Processes.ValuesMembers | src/kernel/process.ts:164-166 | getAllProcesses lists every live record and nothing else |
| Processes.RunningMembers | src/kernel/process.ts:172-174 | getRunningProcesses is exactly the live running records |
| Processes.ChildMembers | src/kernel/process.ts:182-184 | getChildProcesses is exactly the live records with that parent |
| Processes.AppQuery | src/kernel/process.ts:176-180 | getProcessByAppId finds a record exactly when a live running one has the app id |
| Processes.StatsAddUp | src/kernel/process.ts:213-220 | the running, paused and crashed counts add up to the total |
| Processes.SubscribeThenEmit | src/kernel/process.ts:237-250 | a subscribed handler is called once per emit of its event; subscribing twice changes nothing |
| Processes.UnsubscribeThenEmit | src/kernel/process.ts:244-250 | after `off` the handler is not called, every other still is |
| Processes.SubscribeUnsubscribe | src/kernel/process.ts:237-246 | `off` undoes an `on` of a new handler |
| Processes.ProcessManager.On | src/kernel/process.ts:237-242 | the event's handler set gains the handler |
| Processes.ProcessManager.Off | src/kernel/process.ts:244-246 | the handler leaves the event's set |
| Processes.ProcessManager.CleanupCrashedProcesses | src/kernel/process.ts:256-267 | the live crashed processes are dropped from the table and the store |
| Processes.CleanupRemovesCrashed | src/kernel/process.ts:256-267 | cleanup removes exactly the live crashed processes |
| Processes.ProcessManager.KillAll | src/kernel/process.ts:269-275 | every pid of the table at the call is killed in order, as `KillEachEffect` |
| Processes.KillAllParentFirstFails | src/kernel/process.ts:269-275 | when a parent precedes its child in the snapshot, killAll fails: the parent's cascade removes the child, whose own kill then finds no process |
| Processes.KillAllFlatEmpties | src/kernel/process.ts:269-275 | on a table without live parent links killAll empties the table |
| Processes.ProcessManager.Vacuum | src/kernel/storage.ts:241-259 | crashed records older than one hour are deleted from the store |
| Processes.VacuumShape | src/kernel/storage.ts:241-259 | the vacuum deletes exactly the old crashed records |
| Apps.InstallMissingComplete | src/apps/appManager.ts:294-450 | after installBuiltInApps every built-in app is present and the apps stored before are kept |
| Apps.InstallBuiltInsIdempotent | src/apps/appManager.ts:294-450 | a second installBuiltInApps installs nothing |
| Apps.AppManager.InstallBuiltInApps | src/apps/appManager.ts:25-29 | the store becomes `InstallMissing` over the built-in list |
| Apps.AppManager.InstallApp | src/apps/appManager.ts:35-47 | the app gets a fresh id, is not running and is stored |
| Apps.AppManager.UninstallApp | src/apps/appManager.ts:49-67 | an unknown app and a built-in app are errors; a running one is closed first; on success only that app leaves the store |
| Apps.AppManager.LaunchApp | src/apps/appManager.ts:85-123 | an unknown app is an error; a running app with a window focuses it; otherwise a process is spawned, a window opened on top and the app marked running |
| Apps.RegisterFocuses | src/apps/appManager.ts:112-118 | a window registered by launchApp is the only focused one |
| Apps.AppManager.CloseApp | src/apps/appManager.ts:125-152 | an unknown app is an error; else every window of the app is closed, its process killed if one runs, and the app saved as stopped |
| Apps.CloseAppWindowsGone | src/apps/appManager.ts:133-139 | closing each listed window leaves exactly the other apps' windows |
| Apps.AppManager.CreateWindow | src/apps/appManager.ts:158-182 | every held window loses focus; the returned window, focused, takes the next id and z-order value (launchApp registers it) |
| Apps.AppManager.CloseWindow | src/apps/appManager.ts:184-205 | an unknown window is an error; otherwise it is removed, and the app is marked stopped when it was the app's last window |
| Apps.AfterLastWindowFlag | src/apps/appManager.ts:192-202 | closing an app's last window marks it not running; while one remains the store is untouched |
| Apps.AppManager.FocusWindow | src/apps/appManager.ts:207-223 | an unknown window is an error; otherwise it alone is focused, on top and not minimized |
| Apps.FocusSingles | src/apps/appManager.ts:207-223 | after focus the target is the only focused window, above every other |
| Apps.AppManager.MinimizeWindow | src/apps/appManager.ts:225-234 | an unknown window is an error; otherwise it is minimized and unfocused |
| Apps.MinimizeKeepsValid | src/apps/appManager.ts:225-234 | minimize keeps the window invariants, minimizes and unfocuses the target, and leaves no window focused when the target had the focus |
| Apps.AppManager.MaximizeWindow | src/apps/appManager.ts:236-245 | an unknown window is an error; otherwise its maximized flag is toggled |
| Apps.MaximizeTwice | src/apps/appManager.ts:236-245 | maximize toggles the flag, so a second one restores the window except that it is no longer minimized |
| Apps.AppManager.MoveWindow | src/apps/appManager.ts:247-256 | an unknown window is an error; otherwise only its position changes |
| Apps.AppManager.ResizeWindow | src/apps/appManager.ts:258-270 | an unknown window is an error; otherwise the size is clamped by the default bounds |
| Apps.ResizeBounds | src/apps/appManager.ts:452-464 | the clamped size is within [300, 2000] x [200, 1500], a size already inside is kept, and other windows are untouched |
| Apps.ResizeIgnoresAppMinimum | src/apps/appManager.ts:258-270 | an app's own larger minimum is not enforced |
| Apps.AppManager.GetWindow | src/apps/appManager.ts:272-274 | a window exactly when the id is held, and then that window |
| Apps.AllWindowsPermutes | src/apps/appManager.ts:276-278 | getAllWindows lists every window once and nothing else |
| Apps.AllWindowsIncreasing | src/apps/appManager.ts:276-278 | getAllWindows is in strictly increasing z-order |
| Apps.AppManager.UpdateWindowState | src/apps/appManager.ts:280-288 | an unknown window is an error; otherwise its state is merged with the update |
| Apps.StateUpdateMerges | src/apps/appManager.ts:280-288 | the given keys take the new values and every other key keeps its value |
| Economy.WalletRoundTrip | src/economy/economySystem.ts:334-347 | a wallet read back from the store is the wallet saved |
| Economy.CurrencyRoundTrip | src/economy/economySystem.ts:349-361 | a currency read back is the currency saved |
| Economy.EconomySystem.Initialize | src/economy/economySystem.ts:23-41 | the stored OmniCoin is adopted, or created with a supply of one billion; either way the system currency is stored |
| Economy.EconomySystem.CreateWallet | src/economy/economySystem.ts:47-66 | a fresh wallet with no history and 1000 of the system currency when there is one is saved |
| Economy.NewWalletBalances | src/economy/economySystem.ts:47-66 | the new wallet's balance is 1000 in the system currency and 0 in any other |
| Economy.EconomySystem.GetWallet | src/economy/economySystem.ts:68-75 | a wallet exactly when one with the id is stored |
| Economy.EconomySystem.GetWalletByOwner | src/economy/economySystem.ts:77-84 | a wallet exactly when one of the owner is stored, and it is the owner's |
| Economy.EconomySystem.GetOrCreateWallet | src/economy/economySystem.ts:86-94 | the owner's first stored wallet, or a new one saved |
| Economy.PutLookup | src/economy/economySystem.ts:96-109 | after saveWallet a read of its id finds it and reads of other ids are unchanged |
| Economy.PutNew | src/economy/economySystem.ts:96-109 | saving under a new id keeps every record and appends the new one |
| Economy.EconomySystem.CreateCurrency | src/economy/economySystem.ts:115-142 | a fresh currency is appended to the stored array |
| Economy.EconomySystem.GetCurrency | src/economy/economySystem.ts:144-151 | a currency exactly when one with the id is stored |
| Economy.EconomySystem.SetExchangeRate | src/economy/economySystem.ts:158-178 | an unknown source currency is an error; otherwise its stored copy gets the rate |
| Economy.RateRecorded | src/economy/economySystem.ts:158-178 | after setExchangeRate the new rate is read back and every other rate is unchanged |
| Economy.TransferError | src/economy/economySystem.ts:184-205 | a transfer passes its checks exactly when both wallets exist, the source holds at least the amount and the amount is positive; a missing source is reported first |
| Economy.EconomySystem.Transfer | src/economy/economySystem.ts:184-242 | a failed check is the error and nothing changes; otherwise the transaction is saved and both wallets as `Transferred` |
| Economy.TransferMoves | src/economy/economySystem.ts:206-241 | between two wallets, the source loses the amount and the destination gains it |
| Economy.TransferConserves | src/economy/economySystem.ts:206-241 | the sum of the two balances is conserved |
| Economy.TransferHistories | src/economy/economySystem.ts:206-241 | both wallets record the transaction, a self-transfer once |
| Economy.SelfTransferCreates | src/economy/economySystem.ts:206-241 | a self-transfer saves the credited copy last, so the balance grows by the amount |
| Economy.EconomySystem.Mint | src/economy/economySystem.ts:244-283 | a missing wallet or currency is the error; otherwise the wallet is credited and the currencies stay as they were |
| Economy.MintCredits | src/economy/economySystem.ts:244-283 | a mint credits exactly the amount, whatever its sign, and touches nothing else |
| Economy.EconomySystem.GetBalance | src/economy/economySystem.ts:285-293 | a missing wallet is the error; otherwise the stored balance |
| Economy.AbsentCurrencyIsZero | src/economy/economySystem.ts:285-293 | a currency the wallet never held reads as 0 |
| Economy.EconomySystem.GetTransactionHistory | src/economy/economySystem.ts:295-315 | a missing wallet is the error; otherwise the stored records of the last `limit` ids, newest first |
| Economy.HistoryNewestFirst | src/economy/economySystem.ts:295-315 | at most `limit` records for a positive limit, newest first |
| Economy.HistoryZeroLimit | src/economy/economySystem.ts:295-315 | a limit of 0 returns the whole history |
| Economy.EconomySystem.RewardUser | src/economy/economySystem.ts:321-328 | the user's first wallet is found, or a new one created and saved, whether or not there is a system currency; without one nothing else happens; with one stored, the amount is minted to that wallet in the system currency with the reason, as one completed transaction; a system currency missing from the store is the mint's error |
| Economy.LookupFindsStored | src/economy/economySystem.ts:68-75 | a stored wallet is found by its id |
| Agents.DefaultSkillsDistinct | src/ai/aiSystem.ts:334-346 | no type's default skill list repeats a skill |
| Agents.NewAgent | src/ai/aiSystem.ts:33-72 | a new agent is idle with no memories or goals and its type's default skills |
| Agents.CreationDoesNotClamp | src/ai/aiSystem.ts:44-52 | createAgent stores a creativity of 2 unclamped |
| Agents.AISystem.CreateAgent | src/ai/aiSystem.ts:33-72 | the record is saved and cached, then an agent process is spawned: added to the table, saved and announced to the `spawn` handlers |
| Agents.AISystem.Chat | src/ai/aiSystem.ts:109-143 | an unknown agent is the error; otherwise the reply is generated from the thinking copy, two memory ids are used, and the copy saved last is the one read before the memories, now idle, so the memories are lost |
| Agents.GenerateResponse | src/ai/aiSystem.ts:173-186 | a message without any keyword is answered by creativity above 0.7, then formality above 0.7, else the default reply |
| Agents.RepliesByFirstGroup | src/ai/aiSystem.ts:145-186 | the reply belongs to the first of the five keyword groups any of whose keywords the lower-cased message contains; with none, the personality decides |
| Agents.FirstMentionedGroup | src/ai/aiSystem.ts:151-171 | the first group mentioned is the one the chain of `includes` tests reaches first |
| Agents.KeywordGroupDecides | src/ai/aiSystem.ts:151-171 | a keyword of a group, with no keyword of an earlier group, gives that group's reply |
| Agents.HiGreets | src/ai/aiSystem.ts:149-152 | any message containing "hi" is greeted |
| Agents.ThisGreets | src/ai/aiSystem.ts:149-152 | "this", "which", "think", "nothing" and "ship" also greet, since the keyword is a substring test |
| Agents.KeywordBeatsPersonality | src/ai/aiSystem.ts:149-176 | the keyword replies never depend on the personality |
| Agents.NewAgentDefaultReply | src/ai/aiSystem.ts:177-186 | a new agent with the default personality answers a message without keywords with the default reply |
| Agents.Remembered | src/ai/aiSystem.ts:192-221 | the memory is appended; above the cap the 800 most important are kept |
| Agents.TrimKeepsMostImportant | src/ai/aiSystem.ts:206-214 | no dropped memory is more important than a kept one |
| Agents.AISystem.AddMemory | src/ai/aiSystem.ts:192-221 | a fresh copy gets the memory and the trim, and is saved |
| Agents.SearchMemory | src/ai/aiSystem.ts:223-245 | the memories whose content includes the query, case-insensitively, cut at the limit |
| Agents.SearchFindsAll | src/ai/aiSystem.ts:223-245 | with no more matches than the limit, every match is returned |
| Agents.EmptyQueryMatchesAll | src/ai/aiSystem.ts:223-245 | an empty query matches every memory |
| Agents.AISystem.AddGoal | src/ai/aiSystem.ts:251-276 | a fresh copy gets an active goal with no progress and the priority clamped to [0, 10] |
| Agents.ProgressedClamps | src/ai/aiSystem.ts:278-309 | progress is clamped to [0, 1] and completes the goal exactly at full progress |
| Agents.AISystem.UpdateGoalProgress | src/ai/aiSystem.ts:278-309 | the goal of a fresh copy is updated; a completion memory is saved, but the copy saved after it lacks it |
| Agents.WithSkillIdempotent | src/ai/aiSystem.ts:315-332 | adding a skill twice is adding it once, and no repeats appear |
| Agents.AISystem.AddSkill | src/ai/aiSystem.ts:315-332 | a missing skill is appended, saved and remembered; a known one changes nothing |
| Agents.UpdateClamps | src/ai/aiSystem.ts:352-380 | each given scalar lands in [0, 1], missing ones stay, and repeating the update changes nothing |
| Agents.AISystem.UpdatePersonality | src/ai/aiSystem.ts:352-380 | a fresh copy gets the clamped update and is saved |
| Agents.AISystem.UpdateAgent | src/ai/aiSystem.ts:386-389 | the store and the cache both take the record |
| Kernel.KernelState.Boot | src/kernel/index.ts:30-68 | nothing when already booted; otherwise the boot time is set, the user loaded, file system and processes started, and the kernel is booted exactly on success; on an empty store boot fails creating `/home` or `/` |
| Kernel.BootUserId | src/kernel/index.ts:46 | a missing or empty user id boots `demo-user`, any other the given id |
| Kernel.KernelState.LoadUser | src/kernel/index.ts:109-152 | a stored user is adopted; a new one is stored first and then its home directory is created under `/home` with owner-only permissions |
| Kernel.DisplayNameShape | src/kernel/index.ts:117 | the display name differs from the id only in the case of the first letter |
| Kernel.NoHomeOnEmptyStore | src/kernel/index.ts:139-145 | on an empty store the new user's home directory create fails: `/home` does not exist |
| Kernel.KernelState.StartSystemServices | src/kernel/index.ts:167-183 | the storage monitor, then the process supervisor, spawned with the next pids |
| Kernel.KernelState.Shutdown | src/kernel/index.ts:70-97 | nothing when not booted; otherwise every process is killed, the cache cleared, the store vacuumed and the kernel down; a failing killAll is passed on while still booted |
| Kernel.KernelState.GetUptime | src/kernel/index.ts:213-215 | the time since boot, or 0 when not booted |
| Kernel.ActiveUserCountExact | src/kernel/index.ts:203-207 | appending a user adds one to the count exactly when they were seen within the last five minutes; all users count when all were, none when none was |
| Kernel.Overall | src/kernel/index.ts:271-280 | with the quotients `used / quota` and `crashed / max(total, 1)` as JavaScript computes them: critical exactly when the first exceeds 0.9 or the second 0.3; warning exactly when not critical and the first exceeds 0.7 or the second 0.1 |
| Kernel.AboveIsRatio | src/kernel/index.ts:271-272 | comparing a cross-multiplied count is comparing the JavaScript quotient, Infinity for a zero denominator and NaN for 0 / 0 |
| Kernel.OverallMonotone | src/kernel/index.ts:271-280 | more crashed processes or more bytes used never improve the health |
| Kernel.NoProcessesNoDivision | src/kernel/index.ts:272 | with no processes the denominator is 1, so a crashed count of one is already critical |
| Kernel.EmptyIsHealthy | src/kernel/index.ts:268-280 | nothing used and no processes is healthy whatever the quota |
| Collab.SessionTable.CreateSession | server/index.js:26-43 | a new active session with the creator as only participant is stored under its id |
| Collab.SessionTable.JoinSession | server/index.js:46-66 | an unknown id is `Session not found`; otherwise the user is added once and the activity time refreshed |
| Collab.JoinedMembers | server/index.js:54-56 | joining adds exactly that user, once, and keeps the list free of repeats |
| Collab.SessionTable.LeaveSession | server/index.js:69-91 | an unknown id is `Session not found`; otherwise the user is removed and an empty session deleted |
| Collab.LeftMembers | server/index.js:77 | leaving removes every occurrence of the user and nobody else |
| Collab.JoinThenLeave | server/index.js:46-91 | a new user who joins and then leaves restores the list |
| Collab.SessionTable.Update | server/index.js:94-103 | an update is relayed exactly into an existing session, whose activity time is refreshed |
| Collab.SessionTable.Disconnect | server/index.js:106-111 | disconnect changes no session |
| Collab.SessionTable.Cleanup | server/index.js:115-124 | every session idle for more than 30 minutes is deleted, all others stay |
| Collab.CleanedProperties | server/index.js:115-124 | cleanup keeps the table well formed, and cleaning again at the same or a later time is one clean |
| Collab.JoinedSurvivesCleanup | server/index.js:46-66 | a session joined within the timeout survives the next cleanup with the joining user in it, and the rest of the table is cleaned as if the join had not happened |
| TicTacToe.FirstComplete | src/components/apps/TicTacToe.tsx:30-34 | the mark of the first complete line, and none exactly when no line is complete |
| TicTacToe.CalculateWinner | src/components/apps/TicTacToe.tsx:23-41 | the first complete line's mark; else a draw exactly on a full board; else no result |
| TicTacToe.ScoredCountsOnce | src/components/apps/TicTacToe.tsx:11-21 | every result counts exactly one game, for the winner or the draws |
| TicTacToe.Game.HandleClick | src/components/apps/TicTacToe.tsx:43-50 | nothing on an occupied square or decided game; otherwise the mark is placed, the turn passes and the result is scored |
| TicTacToe.Game.ResetGame | src/components/apps/TicTacToe.tsx:52-56 | an empty board, no winner, X to move; the scores are kept |
| TicTacToe.NoEarlyWin | src/components/apps/TicTacToe.tsx:23-41 | a mark with fewer than three squares completes no line |
| Snake.TurnNeverReverses | src/components/apps/SnakeGame.tsx:39-55 | no key reverses the direction; every other arrow is obeyed |
| Snake.Advance | src/components/apps/SnakeGame.tsx:66-109 | leaving the grid or hitting any segment is a collision; otherwise the head moves and the tail stays exactly when the food is eaten |
| Snake.AdvanceKeepsSnake | src/components/apps/SnakeGame.tsx:98-106 | a move keeps the snake in the grid, without repeats and connected, growing by one exactly on food |
| Snake.TailCellCollides | src/components/apps/SnakeGame.tsx:92-96 | moving onto the tail cell that is about to be vacated is still a collision |
| Snake.TwoKeysTurnBack | src/components/apps/SnakeGame.tsx:36-60 | two arrows within one tick reverse a two-segment snake onto its neck |
| Snake.SnakeGame.KeyPress | src/components/apps/SnakeGame.tsx:36-56 | nothing once over; arrows turn, space toggles the pause |
| Snake.SnakeGame.Tick | src/components/apps/SnakeGame.tsx:62-114 | nothing while over or paused; a collision ends the game and raises the high score; a meal scores ten |
| Snake.SnakeGame.ResetGame | src/components/apps/SnakeGame.tsx:26-33 | one segment at the start, moving right, no score; the high score stays |
| Calculator.CalculateEdges | src/components/apps/Calculator.tsx:45-54 | division by zero gives 0, an unknown operator gives `b`, NaN propagates |
| Calculator.CalculateInverses | src/components/apps/Calculator.tsx:45-54 | subtraction undoes addition, and nonzero division undoes multiplication |
| Calculator.RemainderBounds | src/components/apps/Calculator.tsx:51 | the remainder has the dividend's sign and is smaller than the divisor in magnitude |
| Calculator.CalculatorState.HandleNumber | src/components/apps/Calculator.tsx:12-19 | a new number or a lone 0 is replaced by the digit, anything else extended, with no new decimal point |
| Calculator.CalculatorState.HandleDecimal | src/components/apps/Calculator.tsx:21-28 | `0.` for a new number, otherwise a point only if there is none; the display then has exactly one point |
| Calculator.CalculatorState.HandleOperation | src/components/apps/Calculator.tsx:30-43 | the first operator stores the value; a later one with an operator pending computes and shows the result |
| Calculator.CalculatorState.HandleEquals | src/components/apps/Calculator.tsx:56-65 | only with an operation pending: the result is shown and the pending state cleared |
| Calculator.CalculatorState.HandleClear | src/components/apps/Calculator.tsx:67-72 | the four fields as at the start |
| Calculator.CalculatorState.HandleBackspace | src/components/apps/Calculator.tsx:74-81 | the last character goes; a single character becomes 0 and starts a new number |
| Calculator.CalculatorState.Negate | src/components/apps/Calculator.tsx:122 | the display shows the negated value |
| Terminal.TokensShape | src/components/apps/Terminal.tsx:26-31 | a line is blank exactly when it is all whitespace; otherwise the command and each argument are non-empty words without whitespace |
| Terminal.TargetsDiffer | src/components/apps/Terminal.tsx:78-80 | a relative `cd` target is absolute with no `//` and is the `cat`/`rm` target with its slashes collapsed; from `/` the two differ (`/name` against `//name`) |
| Terminal.CalcFilterShape | src/components/apps/Terminal.tsx:174 | the filter keeps exactly the digits, `+ - * / .` and parentheses, and filtering again changes nothing |
| Terminal.UpThenDown | src/components/apps/Terminal.tsx:199-218 | a step down undoes a step up, and the index stays within the history |
| Terminal.TerminalState.ArrowUp | src/components/apps/Terminal.tsx:199-207 | the index moves back while it stays below the history length, showing entry `len-1-index` |
| Terminal.TerminalState.ArrowDown | src/components/apps/Terminal.tsx:208-218 | the index moves forward above 0, else resets to -1 with an empty input |
| Terminal.TerminalState.Enter | src/components/apps/Terminal.tsx:195-198 | the line is run, the input cleared and the index reset |
| Terminal.TerminalState.ExecuteCommand | src/components/apps/Terminal.tsx:25-192 | a blank line does nothing; otherwise the line is echoed and remembered, `clear` empties the screen, and other output is shown |
| Terminal.TerminalState.Run | src/components/apps/Terminal.tsx:39-184 | commands other than the file-system ones produce their text outputs and leave the file system and the directory alone |
| Terminal.TerminalState.Cd | src/components/apps/Terminal.tsx:73-89 | home without an argument; otherwise the target becomes the directory exactly when listing it succeeds |
| Terminal.TerminalState.Ls | src/components/apps/Terminal.tsx:63-71 | the listing of the current directory, one line per entry or `(empty)`, or the error |
| Terminal.TerminalState.Cat | src/components/apps/Terminal.tsx:95-105 | the content at the target path, decoded when binary, or the error |
| Terminal.TerminalState.Make | src/components/apps/Terminal.tsx:111-127 | `mkdir`/`touch` create in the current directory exactly as the file system does, reporting success or the error |
| Terminal.TerminalState.Rm | src/components/apps/Terminal.tsx:129-139 | the store is pruned; a missing target reports `File not found` and an unwritable one `Permission denied`, with nothing removed; a writable file is removed exactly, reporting `Removed`; `Removed` is reported only when the record is gone |
| Cloudinary.Transformations | src/services/cloudinaryStorage.ts:85-88 | `w_` and `h_` only for truthy sizes, then `c_limit`, `q_auto`, `f_auto` |
| Cloudinary.OptimizedShape | src/services/cloudinaryStorage.ts:82-96 | `''` stays `''`; a url without `/upload/` or not split into two is unchanged; else the list is inserted right after the marker |
| Cloudinary.TransformationsSlashFree | src/services/cloudinaryStorage.ts:85-92 | the inserted list is a single path segment |
| Cloudinary.ThumbnailSegment | src/services/cloudinaryStorage.ts:98-100 | a thumbnail asks for 200 by 200 before the fixed transformations |

## Left out

- The IndexedDB layer (`src/kernel/storage.ts`) is one value map per collection, with the by-path index as the least key having the path; opening the database, `initialize`, quotas and `getStorageStats` are not modelled (sizes and quotas are parameters).
- id-keyed VFS cache entries are not modelled: they are only read back when a path string equals a node id, which a uuid never is.
- `async`/`await`: each operation runs to completion before the next; interleavings of un-awaited promises are not modelled.
- Randomness, ids and clocks (`uuidv4`, `Math.random`, `Date`) are parameters or fresh-id counters; a random session suffix or snake food cell is a parameter, and the food can land on the snake as in the source.
- Recursion depth: the recursive `deleteFile`, `copyFile` and `kill` take a `fuel` call-depth bound; running out is the JavaScript stack-overflow error, whose depth is not the engine's.
- The `force` flag of `kill` is accepted by the source and never read; it is not a parameter here.
- Floating point: real numbers replace JavaScript doubles in the calculator, AI scalars and exchange rates; rounding, overflow to Infinity and `-0` are not modelled. Money, sizes, priorities and clocks are integers.
- Processes.ProcessManager.Spawn: `updateResourceUsage` (timer-driven random CPU and memory) and the CPU/memory sums of `getSystemStats` are not modelled.
- `getApp`, `getAllApps`, `getAppsByCategory`, `initialize` of the app manager beyond installing built-ins, and the app metadata fields that no rule reads, are not modelled.
- Aliasing of live objects (windows and processes handed out and mutated later by callers) is not modelled: callers get values.
- Economy `getAllCurrencies` is modelled only as the lookup initialize makes; `getSystemCurrency` is the `systemCurrency` field.
- Agents: `deleteAgent`, `getAgentsByOwner` and `getActiveAgents` are not modelled; `searchMemory`'s ranking by importance and time is left out, only its filter and limit are.
- Kernel `reboot` (shutdown, a one second delay, boot), `switchUser` (which is `loadUser`), `emergencyCleanup`, `resetSystem` (a browser `confirm`) and the `getSystemStats` fields other than `activeUsers` are not modelled.
- Collaboration server: sockets, rooms, callbacks and broadcasts are not modelled; only the `sessions` map.
- Terminal: the text of `ps`, `whoami`, `date` and `sysinfo`, `eval` and `TextDecoder` come from host functions.
- Text.Lower: lower-casing covers ASCII letters only; Text.UpperChar (the display name's first letter) likewise upper-cases ASCII letters only.
- FileSystem.VirtualFileSystem.DeleteFile: the removals are bounded by the set reachable through `children` from the record, also through cached copies, rather than stated as exactly the descendants, since the store is not required to be a tree; the facts about the children and about the parent filter are stated for a store whose cache is coherent with it.
- Cloudinary `deleteFile` is a stub that logs and always returns true; it is not modelled.
- Processes.ProcessManager.Spawn: the metadata patch has no `crashInfo` field, since none of the modelled callers passes one to `spawn`; a new record never has crash info.
- TicTacToe.Game.HandleClick: requires a square index below 9, since only the nine board buttons call it.
- Calculator.CalculatorState.HandleNumber: requires a digit, since only the digit buttons call it; `parseFloat` and `String` are parameters, and `String` is assumed to give a non-empty text with at most one decimal point.
- Cloudinary `uploadFile` and `uploadBase64` are network requests and are not modelled; widths and heights are integers, so non-integer sizes are not formatted.
- Desktop, window chrome, taskbar and the other UI components are rendering only and are not modelled.
