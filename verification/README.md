# Portato, modelled and proved in Dafny

Portato keeps SSH tunnels ("tubers") alive. This project models its long-lived state machines and
the transformations that have to agree with something simpler, and proves properties of them over
every input, every run or every reachable state. `dafny verify dfyconfig.toml` checks all of it.

| file | models |
|---|---|
| `SecretStore.dfy`, `SecretRuns.dfy`, `SecretWaits.dfy`, `SecretDeletion.dfy` | the secret store: its map, its waiter slices in shared memory, every interleaving of Get, Wait, Set and Delete at lock granularity, what each call gives its caller, and what a deletion achieves among them |
| `Tuber.dfy`, `TuberRuns.dfy`, `Backoff.dfy` | a tuber's fields, every interleaving of Start and Stop with the reconnect goroutine, the object that runs those steps on the fields, and the reconnect delay with 64-bit wrap-around |
| `DialChain.dfy`, `PasswordDial.dfy` | dialing through jump hosts with ownership of every connection, and the password fallback around it |
| `Engine.dfy` | the engine's maps over any sequence of reloads and control operations |
| `Handoff.dfy`, `FdPass.dfy` | the hand-off of listening sockets to the daemon as steps of three threads, and the message that carries them |
| `Watcher.dfy` | the config watcher over whole traces of stat results |
| `RotatingLog.dfy` | the rotating log and the order in which it is read back |
| `SshMatch.dfy`, `SshWords.dfy`, `SshSplice.dfy` | the lenient ssh_config reader, what it makes of each kind of line, and its Includes against the text with the files put in place |
| `KnownHosts.dfy` | recovery of a known_hosts file with malformed lines |
| `JumpChain.dfy`, `JumpTargets.dfy` | targets and jump hosts derived from `ssh:`, `jump:` and ssh_config aliases, and where a written address leads |
| `ConfigTree.dfy`, `ConfigPatch.dfy`, `ConfigEdits.dfy` | edits of the YAML tree, their agreement with edits of the config in memory, and what those come to |
| `ImportPlan.dfy`, `ImportNames.dfy` | planning an import: names, coverage, replanning |
| `Text.dfy`, `Wrappers.dfy` | trimming, splitting, joining, decimal numbers; a value that may be missing |

Code that changes state is modelled by classes and loops whose `ensures` give the new state as a
function of the old one; the properties are proved about those functions and, for concurrent code,
about all runs of a step relation (`IsRun`). What the outside world does — servers, keyrings,
clocks, files, other goroutines' scheduling — is a parameter, so that each theorem holds for every
behaviour of it.

Where the code disagrees with its documentation, or keeps a property only on a condition, the model
follows the code and gives the condition:

- The documented backoff (section 10 of the repository's design document) is 1s, 2s, 4s, … up to 30s.
  The counter is raised before the delay is computed (`internal/forward/tuber.go:533-534`), so the
  first wait of an outage is 2s; 1s comes only after a stable session (`Backoff.OutageWaits`, `TuberRuns.EverySleepIsDue`).
- `internal/tui/handoff.go:168` calls a failed transfer harmless once the daemon is healthy. The
  daemon answers, but it could not bind the ports the standalone still held, so nobody serves them
  (`Handoff.FailedTransferDropsThePorts`, and exactly then: `Handoff.ServedIffTransferred`).
- `internal/fdpass/fdpass_unix.go` accepts 128 descriptors, but its receive buffer has room for 32. A
  larger message pairs nothing and leaves 32 descriptors open in the daemon, so those ports stay taken
  and unserved (`FdPass.BeyondTheBuffer`, `FdPass.WhatIsLeft`, `Handoff.WhatFailureLeaves`).
- Stop sets the state to Off before it cancels the goroutine, whose last steps may write the state
  again: a stopped tuber shows Off for certain exactly if the goroutine was past its last write
  (`TuberRuns.StopShowsOffIff`).
- The probe before a password prompt is there so that the user is asked only on a trusted target. The
  code goes by the text of the failure, so two things prompt besides the target's refusal: a bastion's
  refusal of the keys (`PasswordDial.BastionRefusalPrompts`), and an earlier failure whose text, which
  a server may choose, is worded like one (`PasswordDial.MistakableWordsPrompt`). The guarantee holds
  exactly without both or without prompts (`PasswordDial.PromptsAreTrustedIff`).
- For the same reason a password can be deleted, and counted as rejected, that no server has seen
  (`PasswordDial.MistakableWordsCostThePassword`, `PasswordDial.MistakableWordsAreCounted`; exactly
  when: `PasswordDial.RetriesAreRejectionsIff`, `PasswordDial.AttemptsAreRejectionsIff`).
- A Wait that a Set wakes does not always return what was Set: a Get that missed the cache before may
  fill it with another value read from the keyring in between. It is certain to exactly when no such
  Get is under way (`SecretWaits.WokenWaitGetsIff`).
- The password loop ignores a failed deletion (`internal/forward/password.go:165`), and Get reads the
  keyring outside the lock, so a deleted password can return by itself
  (`SecretDeletion.DeletedComesBackIff`).
- `logs --all` reads `.3`, `.2` and `.1` whatever `keep` is: after `keep` was lowered a left-over
  archive breaks the order, and only then (`RotatingLog.StaleArchiveBreaksLogsAll`,
  `RotatingLog.LogsAllReadsASuffix`).
- Preparing a tuber never clears what was derived for it before
  (`JumpChain.PreparingKeepsStaleValues`, `JumpChain.OldJumpsStay`), so a tuber edited in memory
  agrees with the edited file exactly when nothing stale is left (`ConfigPatch.AddAgrees`,
  `ConfigPatch.ReplaceAgrees`).
- A blank `ssh:` that a catch-all Host supplies with HostName and Port loads, and is resolved one step
  further by every edit (`JumpChain.BlankTargetMoves`, `ConfigPatch.BlankSshIsResolvedTwice`).
- The file's edits look names up in plain nodes only: an alias node among the tubers is not found by
  its name (`ConfigPatch.FileFindsIff`) but by the empty one (`ConfigPatch.EmptyNameHitsAnAlias`), and
  an empty `tubers:` refuses the first tuber (`ConfigPatch.AddIsRefusedIff`).
- A derived chain loses its form exactly when a resolved name holds a comma or a resolved host an '@'
  (`JumpChain.DerivedJumpsAreTheHops`, `JumpChain.HostNameWithAtIsLost`).
- Import accepts a port written `+80`, which makes an invalid tuber name (`ImportPlan.PlanNames`,
  `ImportPlan.PlusSignMakesBadName`).
- A boolean default set over a non-scalar node is not read back (`ConfigTree.SetThenGet`,
  `ConfigTree.SetOverAliasIsLost`).

## Model

| member | source | states |
|---|---|---|
| SecretStore.Store.RegisterWaiter | internal/secret/secret.go:126-129 | appending to a path's waiter slice, in place or in a grown array, gives the state Register describes |
| SecretStore.Store.SetCacheAndTake | internal/secret/secret.go:176-181 | Set's critical section caches the value, takes the whole list and forgets the path |
| SecretStore.Store.RemoveFirst | internal/secret/secret.go:185-198 | the in-place slide removes the first occurrence of the channel and drops an emptied entry |
| SecretStore.Store.Wake | internal/secret/secret.go:200-204 | the loop closes every channel of the taken slice |
| SecretStore.Store.Get | internal/secret/secret.go:97-115 | found exactly if cached or in a readable keyring; the cache wins, a keyring value is cached, so the next Get gives the same without the keyring |
| SecretStore.Store.HandOver | internal/secret/secret.go:122-204 | a waiter joins those there, a Set comes: every one of them is woken, and the waiter reads what was Set, whatever the keyring holds |
| SecretStore.HandedOver | internal/secret/secret.go:122-198 | what that leaves: the path has no waiters, every other list is as it was, and the leaving waiter finds itself gone already |
| SecretStore.RegisterLists | internal/secret/secret.go:126-129 | registering appends to that path's list, changes no other list and no other array |
| SecretStore.RemoveLists | internal/secret/secret.go:185-198 | removing takes one channel out of that path's list, changes no other list and only that path's array |
| SecretRuns.StepKeeps | internal/secret/secret.go:97-204 | the invariant behind the rendezvous theorems survives every step of every call |
| SecretRuns.Rendezvous | internal/secret/secret.go:97-204 | in every interleaving: no channel is closed twice, no wakeup is lost, a list taken by a Set is never corrupted by the slides of others, every value returned for a path was Set for it or held for it by the keyring |
| SecretRuns.NoEntryOutlivesItsWaits | internal/secret/secret.go:185-198 | once no Wait is in progress the waiters map is empty |
| SecretRuns.SetClosesWhatItFound | internal/secret/secret.go:176-204 | whatever other calls do meanwhile, the channels a Set took are closed when it has returned |
| SecretRuns.SetWakesEveryListedWaiter | internal/secret/secret.go:176-204 | every channel listed when a Set enters its critical section was open then and is closed when it returns |
| SecretWaits.CachedIsReturned | internal/secret/secret.go:97-125 | a Get, and the check that opens a Wait, return a cached value at once and change nothing else |
| SecretWaits.KeyringIsAsked | internal/secret/secret.go:105-115 | without one a Get returns and caches what a readable keyring holds, else it returns nothing |
| SecretWaits.WaitLinesUp | internal/secret/secret.go:122-129 | a Wait that finds neither is listed behind the others on an open channel of its own |
| SecretWaits.WokenReturnsCached | internal/secret/secret.go:134-140 | a Wait whose channel is closed returns the cached value, and its channel is off the list |
| SecretWaits.WokenReadsKeyring | internal/secret/secret.go:137-140 | without a cached value it reads, caches and returns what the keyring holds |
| SecretWaits.WokenFindsNothing | internal/secret/secret.go:137-140 | with neither, or an unreadable keyring, it returns nothing |
| SecretWaits.CancelledReturnsNothing | internal/secret/secret.go:134-143 | a Wait whose context ends returns nothing, and its channel is off the list |
| SecretWaits.SetIsFound | internal/secret/secret.go:149-183 | from its critical section on a Set leaves nobody listed, and its value is what a Get then returns |
| SecretWaits.EndedSetIsKept | internal/secret/secret.go:149-157 | when it ends the keyring holds the value exactly if the store persists and the keyring took it |
| SecretWaits.DeleteTakesBoth | internal/secret/secret.go:164-173 | a Delete leaves the value in neither the cache nor a keyring that obeys, and touches no other path |
| SecretWaits.WokenWaitGets | internal/secret/secret.go:122-183 | after a Set(p, v), while nobody deletes p or sets it to something else, no earlier Get of p is between its miss and its fill, and its context lives, a blocked Wait waits on until it leaves with v, whatever else happens |
| SecretWaits.WokenWaitGetsIff | internal/secret/secret.go:97-204 | a Wait listed when a Set takes its critical section is certain to return that value, exactly if no Get of the path is between its miss and its fill |
| Backoff.DelayIsCappedPower | internal/forward/backoff.go:12-23 | the delay is min(2^n, 30) seconds for every attempt n, although the 64-bit shift wraps |
| Backoff.NegativeAttemptIsBase | internal/forward/backoff.go:12-16 | a negative attempt gets the one-second base |
| Backoff.AttemptCounts | internal/forward/backoff.go:27-32 | the counter is the number of tries ended since the last stable session, and the delay is the one due for it |
| Backoff.ReconnectWaits | internal/forward/tuber.go:513-567 | along any sequence of ended tries each wait is the one due |
| Backoff.OutageWaits | internal/forward/tuber.go:533-534 | the n-th failure in a row since a session of thirty seconds is followed by min(2^n, 30) seconds |
| TuberRuns.Cell.Start | internal/forward/tuber.go:125-171 | one critical section, the bind within it: refused when running, Error and nothing left when the bind fails, otherwise a new goroutine with every earlier run gone and the new listener the only one |
| TuberRuns.Cell.StartWith | internal/forward/tuber.go:178-205 | adopts the listener as the only one, with every earlier run gone; refused untouched for type=remote and when running |
| TuberRuns.Cell.Stop | internal/forward/tuber.go:207-255 | Stop from its critical section to its return, whatever goroutines, sessions and contexts do in between: no listener, client or run is left in the fields, none is open, every goroutine has exited |
| TuberRuns.Cell.Publish | internal/forward/tuber.go:541-546 | the client shown is the newest run's own, no other was shown before, and with it the tuber is Connected |
| TuberRuns.Cell.Withdraw | internal/forward/tuber.go:554-557 | a goroutine withdraws its own client or finds none, never another's, and still holds it for closing |
| TuberRuns.Cell.Enter | internal/forward/tuber.go:871-892 | a state written by setState or setStateErr never replaces Connected while a client is shown |
| TuberRuns.Cell.Step | internal/forward/tuber.go:509-739 | every step of a goroutine, run on the guarded fields, is the step of the model and keeps the invariant |
| TuberRuns.Cell.Await | internal/forward/tuber.go:251-253 | waiting for done ends, however the cancelled goroutine's dials, sleeps and sessions turn out |
| TuberRuns.StepKeeps | internal/forward/tuber.go:207-739 | the invariant tying fields, runs, listeners and clients together survives every step of the control thread and the goroutines |
| TuberRuns.ClientMeansConnected | internal/forward/tuber.go:541-557 | in every interleaving a non-nil client implies state Connected, and only the newest goroutine can be alive |
| TuberRuns.StopLeavesNothing | internal/forward/tuber.go:207-255 | when Stop returns every goroutine has exited, client and listener are nil, no local or server-side listener is open, and every SSH client ever dialed is closed |
| TuberRuns.AtRest | internal/forward/tuber.go:125-255 | the same holds whenever the tuber is at rest |
| TuberRuns.EverySleepIsDue | internal/forward/tuber.go:513-567 | every sleep of every run lasts min(2^n, 30) seconds for the tries ended since the last stable session |
| TuberRuns.OneSleepPerTry | internal/forward/tuber.go:513-567 | when the (n + 1)-th dial begins n tries have ended, and after each came exactly one sleep, the one due |
| TuberRuns.RecordedSleepsAreSlept | internal/forward/tuber.go:533-565 | a sleep is recorded exactly when the goroutine falls asleep; only a further step of its own wakes it |
| TuberRuns.ShowsWhatItDoes | internal/forward/tuber.go:513-567 | a running tuber shows Connecting, Connected, Reconnecting or Error as its goroutine is doing, and a client exactly while it is served |
| TuberRuns.ServesWhereItListens | internal/forward/tuber.go:669-760 | a serving remote tuber has its own and no other listener open on the server, any other tuber none |
| TuberRuns.RestFoldsToFresh | internal/forward/tuber.go:207-300 | stopping or reconfiguring a tuber at rest makes its fields as good as new, whatever it showed |
| TuberRuns.CanConnect | internal/forward/tuber.go:513-567 | from wherever its goroutine is, an uncancelled running tuber can get connected with a client of its own |
| TuberRuns.ParentEndsTheRun | internal/forward/tuber.go:509-567 | when the parent context ends the goroutine can get to its exit, every client it dialed closed |
| TuberRuns.StopWaitsForNothingOpen | internal/forward/tuber.go:242-254 | when Stop begins to wait, its goroutine is cancelled and the listener and client it took are closed |
| TuberRuns.CancelledGoroutineExits | internal/forward/tuber.go:509-739 | a cancelled goroutine is never stuck, and each step brings it closer to its exit |
| TuberRuns.StopReturns | internal/forward/tuber.go:242-254 | from any state inside Stop a bounded continuation lets it return |
| TuberRuns.StopShowsOffIff | internal/forward/tuber.go:228-254 | after its critical section a Stop is certain to end with state Off exactly if the goroutine is past its last state write |
| TuberRuns.StopMayLeaveState | internal/forward/tuber.go:513-557 | from any other place there is a way for Stop to return with another state shown |
| DialChain.Net.CloseAll | internal/forward/ssh.go:172-176 | the closing loop closes exactly the clients given, with their connections |
| DialChain.Net.Abandon | internal/forward/ssh.go:187-195 | giving up closes every client of the chain so far |
| DialChain.Net.Handshake | internal/forward/ssh.go:88-141 | a handshake yields a client over its connection or closes the connection, the late client of a timed-out handshake included |
| DialChain.Net.DialHops | internal/forward/ssh.go:169-198 | hop by hop through the client before, up to the first that fails; each hop sees only its own methods |
| DialChain.Net.DialConn | internal/forward/ssh.go:151-210 | it fails exactly when the callback or some hop does, names the first such hop and what happened there, and has then closed all it opened; else one live client per hop, bastions leashed to the last |
| DialChain.LiveChainLinks | internal/forward/ssh.go:160-198 | each client of a chain speaks to its own hop through its predecessor and was offered that hop's methods |
| DialChain.Net.FinalEnded | internal/forward/ssh.go:200-208 | when the final client has ended, exactly the intermediates are closed, with their connections |
| DialChain.DialThenEnd | internal/forward/ssh.go:151-210 | after a dial with any methods, callback and outcomes, and the end of its final client, no client it made and no connection it opened is left open |
| PasswordDial.RunRound | internal/forward/password.go:133-166 | one turn of the retry loop over the network: its events and verdict, and nothing of it left open unless it connected |
| PasswordDial.RunLoop | internal/forward/password.go:103-167 | the retry loop as a whole, for any script of servers and provider, with the same guarantee |
| PasswordDial.RunDialSSH | internal/forward/ssh.go:47-60 | the whole dial over the network: its events are the specification's, all it opened is closed again but for the chain it returns, and no handshake but the target's is offered a password |
| PasswordDial.RecognisedByText | internal/forward/password.go:169-178 | a failed dial is taken for a refused authentication exactly if it was one or its own text is worded like one |
| PasswordDial.WordsAreRead | internal/forward/password.go:169-178 | a server's own words are read so whatever the SSH library puts in front of them |
| PasswordDial.RetryIffPasswordSent | internal/forward/password.go:181-200 | scanning the message finds out whether the password method was sent, whatever methods it lists |
| PasswordDial.RefusalWords | internal/forward/password.go:169-178 | either of the two phrases is a refusal wherever it stands in a message |
| PasswordDial.NoListMeansRetry | internal/forward/password.go:193-200 | a message without a list of methods is taken to be worth another try |
| PasswordDial.PromptsIff | internal/forward/password.go:66-142 | in every script: there is a prompt exactly if password auth is on with a provider, the key dial was made and taken for a refusal, and the loop comes to a round without a known password |
| PasswordDial.HostKeyIsCheckedBeforeAnyPrompt | internal/forward/password.go:66-142 | in every script: each prompt comes when the target's host key has just been accepted, exactly if the dial before each asking round was refused by the target itself |
| PasswordDial.BastionRefusalPrompts | internal/forward/password.go:66-142 | with any keys and any bastions a refusal by the first bastion prompts for the target's password although the target was never reached |
| PasswordDial.MistakableWordsPrompt | internal/forward/password.go:66-142 | without any bastion a handshake that fails before the host key is looked at prompts, for every text worded like a refused authentication |
| PasswordDial.PromptsAreTrustedIff | internal/forward/password.go:38-54 | over all scripts whose other failures have texts from a given set, each prompt follows the target's own refusal, exactly if there can be no prompt, or there is no bastion and no text of that set is worded like a refused authentication |
| PasswordDial.PasswordOnlyToTheTarget | internal/forward/ssh.go:160-198 | the password method is never offered to an intermediate hop, in any dial of the exchange |
| PasswordDial.EveryRetryFollowsADeletion | internal/forward/password.go:133-166 | in every script each password dial but the last was taken for a wrong password and the password deleted at once; it was a server's refusal if what is taken for one always is |
| PasswordDial.RetriesAreRejectionsIff | internal/forward/password.go:133-166 | over all such scripts each retry follows a server's refusal of the password before, exactly if there can be no retry or no text of the set looks like a wrong password |
| PasswordDial.MistakableWordsCostThePassword | internal/forward/password.go:133-166 | for every such text a stored password that no server saw is deleted and dialed again |
| PasswordDial.AttemptsAreSetAside | internal/forward/tuber.go:421-454 | passwordAttempts never exceeds the passwords taken for wrong in that dial; nor the refusals, if what is taken for one always is |
| PasswordDial.AttemptsAreRejectionsIff | internal/forward/tuber.go:421-454 | over all such scripts it never exceeds the server's refusals, exactly under that same condition |
| PasswordDial.MistakableWordsAreCounted | internal/forward/tuber.go:421-454 | for every such text a user who types the password twice is told of one rejection where there was none |
| PasswordDial.PromptIsLeftIff | internal/forward/password.go:133-155 | in every script: connected exactly if some dial came up; a prompt is left pending exactly if there was one and the dial did not connect |
| PasswordDial.DialsWhatItIsGiven | internal/forward/password.go:133-166 | the passwords dialed are those the provider gave, each once and in order, up to the first not taken for wrong |
| PasswordDial.VerdictTells | internal/forward/password.go:66-166 | what is reported at the end is about the last thing that happened: whose failure, whether passwords were offered, that none was given |
| SecretDeletion.ComesBackIff | internal/secret/secret.go:97-204 | from any reachable state a value that nobody provides any more can be returned again exactly if it is cached, in the keyring, or held by a call in progress |
| SecretDeletion.DeletedComesBackIff | internal/secret/secret.go:164-174 | after a Delete exactly if it was cached again meanwhile, its keyring deletion failed, or a call in progress holds it |
| SecretDeletion.RedialedOnlyIf | internal/forward/password.go:133-166 | with the store as provider, a deleted password is dialed again only if it outlived its deletion in one of those ways or was provided again |
| Engine.EngineObject.constructor | internal/forward/engine.go:113-138 | a new engine holds the tubers its config builds |
| Engine.EngineObject.BuildAll | internal/forward/engine.go:139-147 | one tuber per name of the config |
| Engine.FirstWins | internal/forward/engine.go:140-143 | of entries with one name the first is built |
| Engine.UniqueNamesAgree | internal/forward/engine.go:139-349 | with unique names building and reloading choose the same entries |
| Engine.EngineObject.DropMissing | internal/forward/engine.go:351-356 | whatever the map order, exactly the tubers missing from the new config are stopped and dropped |
| Engine.EngineObject.Reconcile | internal/forward/engine.go:358-381 | whatever the map order, each name of the new config ends as Next describes |
| Engine.EngineObject.ReconcileOne | internal/forward/engine.go:359-380 | one name is created, reconfigured, updated or left, as Next describes |
| Engine.EngineObject.Reload | internal/forward/engine.go:337-385 | the engine after a reload is Reloaded of the engine before |
| Engine.CollectByName | internal/forward/engine.go:346-349 | the new config as a map by name, the last of equal names winning |
| Engine.ReloadReconciles | internal/forward/engine.go:337-385 | a reload keeps the three maps and every tuber's own config in agreement |
| Engine.AlwaysReconciled | internal/forward/engine.go:113-385 | over any sequence of reloads and control operations the three key sets coincide and every tuber works from its current config, field by field, but for enabled and the derived jumps and identity, and from the current defaults but for update_check |
| Engine.NextDisturbsOnlyEdits | internal/forward/engine.go:359-380 | a tuber with no field but enabled, tags, jumps and derived identity edited is never restarted; an edited one is stopped once and runs afterwards only if it ran before |
| Engine.ReloadDisturbsOnlyEdits | internal/forward/engine.go:337-385 | the same for every name of a reload; missing names are gone, new ones run exactly if enabled and bound |
| Engine.ComparedFields | internal/forward/engine.go:403-457 | what a reload compares is every field but enabled, tags and the derived jumps and identity |
| Engine.ControlsActOnOne | internal/forward/engine.go:149-201 | Enable, Disable and Restart act on one tuber alone: running, starts and stops afterwards |
| Engine.EqualReloadChangesNothing | internal/forward/engine.go:408-457 | reloading an equal config changes no tuber |
| Engine.ReloadLosesNone | internal/forward/engine.go:351-385 | a reload loses no tuber: each is in the map afterwards or was stopped, once if it ran |
| Engine.ReloadAll | internal/forward/engine.go:337-385 | over any number of reloads, with any ports free each time, the engine object stays reconciled and all that left its map is stopped |
| Handoff.StartEnabledWith | internal/forward/engine.go:241-283 | which adopted listeners are taken over, left open unowned or closed, and which ports are bound anew |
| Handoff.CollectJobs | internal/forward/engine.go:248-263 | the enabled tubers in order, and which adopted listeners they use |
| Handoff.StartJobs | internal/forward/engine.go:265-274 | starting them sorts the adopted listeners by whether StartWith takes them |
| Handoff.CloseUnused | internal/forward/engine.go:275-282 | exactly the unused adopted listeners are closed |
| Handoff.StepKeeps | internal/tui/handoff.go:121-174 | after every step of the three threads each socket is held exactly by those the program counters say |
| Handoff.PortsStayUp | internal/tui/handoff.go:121-174 | at every step of every interleaving a sent socket of an enabled local or dynamic tuber has an open descriptor, unless the transfer failed and the standalone let go |
| Handoff.EndsWithOneOwner | internal/forward/engine.go:241-283 | after a successful hand-off such a socket has exactly one owner, the daemon's tuber; those of disabled or unknown tubers are closed; an enabled remote tuber's stays open unowned |
| Handoff.ServedIffTransferred | internal/tui/handoff.go:160-174 | at the end the daemon's tuber owns such a port exactly if the transfer succeeded |
| Handoff.TransferServesThePorts | internal/tui/handoff.go:121-174 | from any start with at most 32 sockets there is a run in which the standalone is gone and every kept port is held by the daemon's tuber alone |
| Handoff.CanSucceedIff | internal/fdpass/fdpass_unix.go:39-144 | a hand-off can succeed exactly if there are at most 32 sockets |
| Handoff.BindsWhatWasNotSent | internal/forward/engine.go:241-283 | however a hand-off ends, the daemon has bound exactly its enabled local and dynamic tubers that were not sent |
| Handoff.TakersAre | internal/forward/engine.go:248-263 | which tubers those are, in the words of the config |
| Handoff.StandaloneKeepsItsPorts | internal/tui/handoff.go:94-167 | a standalone whose daemon cannot be spawned, or is not healthy in time, still holds every socket |
| Handoff.CanGiveUp | internal/tui/handoff.go:94-167 | both can happen |
| Handoff.WhatFailureLeaves | internal/fdpass/fdpass_unix.go:95-144 | after a failed transfer a socket is open exactly if its descriptor was left in the daemon, unserved; with more than 32 sockets no transfer succeeds, and a message read at all leaves 32 |
| Handoff.FailedTransferDropsThePorts | internal/tui/handoff.go:160-174 | from any start, whatever a failed receive can leave behind, there is a run in which the daemon becomes healthy, the standalone is gone, no kept port is served, and only the tubers that were not sent are bound |
| FdPass.Send | internal/fdpass/fdpass_unix.go:39-90 | which message goes out or which error, a failing write included; every file is closed, except from the first offer without one on |
| FdPass.U32RoundTrip | internal/fdpass/fdpass_unix.go:66-72 | the length prefix read back is the length written |
| FdPass.Conn.ReadAtLeast | internal/fdpass/fdpass_unix.go:146-161 | however the stream is cut, it reads on from where it was until enough is there or the stream ends, inside the buffer |
| FdPass.Conn.Recv | internal/fdpass/fdpass_unix.go:95-144 | what is received depends on the whole stream alone, for every way it is cut, without leaving the buffer |
| FdPass.AdoptListeners | internal/fdpass/fdpass_unix.go:163-179 | the loop pairs headers with descriptors, or fails, as Adopted describes |
| FdPass.AdoptsIff | internal/fdpass/fdpass_unix.go:163-179 | adoption succeeds exactly if every header has a name and every descriptor is a listener |
| FdPass.AdoptsUpTo | internal/fdpass/fdpass_unix.go:163-179 | otherwise the first bad one decides the error and which descriptors stay open |
| FdPass.ReceivedIff | internal/fdpass/fdpass_unix.go:95-144 | a message is received exactly if it is complete, readable, and pairs at most 32 listeners with named headers |
| FdPass.RoundTrip | internal/fdpass/fdpass_unix.go:39-178 | up to 32 offers arrive as exactly the pairing of names and descriptors that was offered |
| FdPass.BeyondTheBuffer | internal/fdpass/fdpass_unix.go:95-125 | 33 to 128 offers are sent, but the receiver reports truncation, pairs nothing and leaves the first 32 descriptors open |
| FdPass.WhatIsLeft | internal/fdpass/fdpass_unix.go:95-179 | what any receive leaves open: nothing on success, never more than 32, the first 32 of a larger message |
| FdPass.Exchange | internal/fdpass/fdpass_unix.go:39-178 | sending and receiving together, from no offer to 128, for every cut of the stream: the offered pairing arrives exactly if there are at most 32 |
| Watcher.RunLoop | internal/daemon/watcher.go:78-133 | the loop's variables give the events the automaton describes |
| Watcher.AlwaysTracks | internal/daemon/watcher.go:78-133 | after any trace: what is stable is what was last reloaded, and an armed loop has seen one signature only since it was armed |
| Watcher.ReloadsAreSettled | internal/daemon/watcher.go:94-130 | a reload fires only where the file exists, for a signature that was the only one seen for the settle time and differs from the last reloaded |
| Watcher.SettledEditsAreReloaded | internal/daemon/watcher.go:106-130 | any stretch at least the settle time long showing one other signature contains its reload |
| Watcher.QuietFileIsLeftAlone | internal/daemon/watcher.go:96-129 | a missing or unchanged file is never reloaded |
| Watcher.OneWarningPerAbsence | internal/daemon/watcher.go:96-106 | a missing file is warned about once until it is seen again |
| Watcher.WarnsIff | internal/daemon/watcher.go:96-106 | a tick warns exactly if it is the first to miss a file seen before |
| RotatingLog.Effective | internal/log/file.go:47-53 | non-positive limits fall back to defaults, so both limits are positive |
| RotatingLog.RotatingWriter.constructor | internal/log/file.go:47-76 | opening creates a missing file and takes its size |
| RotatingLog.RotatingWriter.Write | internal/log/file.go:78-95 | a write, partial or failed, and the rotation it may cause |
| RotatingLog.RotatingWriter.Rotate | internal/log/file.go:100-134 | rotation with any of its operations on the current file failing |
| RotatingLog.RotatingWriter.Shift | internal/log/file.go:104-111 | the descending rename loop moves every archive on by one and drops the oldest |
| RotatingLog.RotatingWriter.PurgeAged | internal/log/file.go:139-154 | the purge loop removes exactly the archives older than the cutoff |
| RotatingLog.PurgeCuts | internal/log/file.go:136-154 | purging by age removes an oldest stretch, so what is left is an unbroken end |
| RotatingLog.PurgeGoesByAge | internal/log/file.go:136-154 | exactly the archives .1 to .keep whose age exceeds a positive limit go |
| RotatingLog.FullFileRotates | internal/log/file.go:78-134 | file by file: a write that fills the file makes it .1, moves every archive on, drops what is beyond .keep or past its age, and starts an empty one |
| RotatingLog.SmallWriteAppends | internal/log/file.go:78-95 | a write below the limit is appended whole and touches no other file |
| RotatingLog.RotateKeeps | internal/log/file.go:100-134 | whatever fails, rotation loses nothing but the oldest end |
| RotatingLog.ChainIsASuffix | internal/log/file.go:78-154 | after any writes, archives .keep to .1 and the current file are an unbroken end of everything written, no write is split, and the cached size is the real one |
| RotatingLog.BeyondKeepIsUntouched | internal/log/file.go:104-111 | nothing beyond .keep is ever written, so at most keep archives are made |
| RotatingLog.FilesStayBounded | internal/log/file.go:78-95 | when operations succeed each file this writer starts exceeds maxSize by less than one write |
| RotatingLog.LogsAllReadsASuffix | internal/cmd/logs.go:121-134 | without a left-over archive, what `logs --all` reads is always an unbroken end of the history |
| RotatingLog.OwnArchivesAreKept | internal/log/file.go:104-111 | every archive this writer started is one of .1 to .keep |
| RotatingLog.StaleArchiveBreaksLogsAll | internal/cmd/logs.go:121-134 | with one, keep + 1 full writes make it something else, whatever the age limit, so that condition is exact |
| SshMatch.SplitTokens | internal/config/sshmatch.go:211-238 | the lexer loop gives the tokens of the automaton |
| SshMatch.TokensNonEmpty | internal/config/sshmatch.go:63-67 | a line that is neither blank nor a comment always has a token |
| SshMatch.QuotedTokensSurvive | internal/config/sshmatch.go:208-238 | any tokens free of double quotes, written in quotes, are read back as they were |
| SshMatch.Reader.FilterLines | internal/config/sshmatch.go:52-93 | the filter loop gives the filtered lines and warnings, and leaves the visiting set as it was |
| SshMatch.Reader.FilterLine | internal/config/sshmatch.go:55-91 | one line's contribution and the skipping flag after it |
| SshMatch.Reader.ExpandInclude | internal/config/sshmatch.go:146-193 | an Include's contribution, error cases included, with the visiting set restored |
| SshMatch.Reader.InsertFiles | internal/config/sshmatch.go:177-192 | the loop over the included files |
| SshMatch.Reader.LenientConfig | internal/config/sshmatch.go:43-47 | the whole rewrite of a text |
| SshMatch.InertMeans | internal/config/sshmatch.go:52-93 | a line is dropped territory exactly when the last header up to it is a Match that cannot be evaluated |
| SshMatch.FilterPreservesMeaning | internal/config/sshmatch.go:31-93 | for every alias and key the ordered list of values, hence the first one, is the same on the filtered lines as on the original with such blocks never matching |
| SshMatch.FilterKeepsOrder | internal/config/sshmatch.go:52-93 | the output is a subsequence of the input |
| SshMatch.FilterDropsIffBadMatch | internal/config/sshmatch.go:52-93 | text is dropped, and a warning given, exactly when there is such a header; else the filter is the identity |
| SshMatch.FilterIsIdempotent | internal/config/sshmatch.go:52-93 | filtering again changes nothing and warns of nothing |
| SshMatch.OutputIsClean | internal/config/sshmatch.go:52-193 | whatever files are included, the output holds no Match header that cannot be evaluated |
| SshMatch.NothingIncludesItself | internal/config/sshmatch.go:146-193 | no file is expanded inside itself, cyclic Includes or not, and no chain exceeds the depth cap |
| SshMatch.LenientIsDecodable | internal/config/sshmatch.go:43-47 | no line of the rewritten text is such a header |
| SshMatch.LenientPreservesMeaning | internal/config/sshmatch.go:31-47 | lookup in the rewritten text equals lookup in the original text |
| SshMatch.LenientIsIdempotent | internal/config/sshmatch.go:31-47 | text without such blocks comes back untouched; rewriting twice equals rewriting once |
| SshWords.PlainWordsAreTokens | internal/config/sshmatch.go:208-238 | words without blanks and quotes, set apart by any blanks and tabs, are the tokens; a comment behind them is not |
| SshWords.EqualsReadsAsBlank | internal/config/sshmatch.go:95-109 | `Keyword=value` reads as `Keyword value` |
| SshWords.KindIsByKeyword | internal/config/sshmatch.go:68-91 | a line is Host, Match or Include exactly if its first token is that word, in any case, or that word before an equals sign |
| SshWords.MatchIsKeptIff | internal/config/sshmatch.go:111-141 | a Match header can be evaluated exactly if it is `all`, or `host` with patterns, and none of the nine criterion words comes after |
| SshWords.UnreadableBlockIsDropped | internal/config/sshmatch.go:52-93 | one that cannot is warned of and dropped with all lines up to the next Host or Match, and nothing else is touched |
| SshWords.ReadableHeaderIsKept | internal/config/sshmatch.go:68-80 | every other header comes out as it went in and ends the skipping |
| SshWords.OtherLineIsKept | internal/config/sshmatch.go:58-91 | so does any other line outside a dropped block that is no Include |
| SshWords.StuckIncludeIsKept | internal/config/sshmatch.go:143-193 | an Include that is nested five deep, names nothing, has a bad pattern or an unreadable file, or no home, comes out trimmed with nothing of its files |
| SshWords.IncludePaths | internal/config/sshmatch.go:157-168 | which path an Include looks at |
| SshSplice.FilterPreservesSplicedMeaning | internal/config/sshmatch.go:31-193 | with Includes: for every alias and key the values in the filtered lines are those in the lines with the included files put in place, as long as no Include in a dropped block brings a header and no file included elsewhere ends in one |
| SshSplice.LenientPreservesSplicedMeaning | internal/config/sshmatch.go:31-193 | the same of lookup in a whole rewritten text |
| SshSplice.FileEndsInDroppedBlock | internal/config/sshmatch.go:146-193 | an included file that ends in a dropped block does change the meaning of the next line |
| SshSplice.DroppedIncludeOpensBlock | internal/config/sshmatch.go:52-93 | a dropped Include whose file opens a block does lose that block |
| KnownHosts.LineErrorRoundTrip | internal/forward/knownhosts.go:105-126 | a per-line message gives its line number and trimmed reason back, whatever path and reason contain |
| KnownHosts.OnlyLineErrorsNameLines | internal/forward/knownhosts.go:105-126 | a number is only read out of such a message; any other names no line and is its own reason |
| KnownHosts.BytesCount | internal/forward/knownhosts.go:60-66 | a line's length is in bytes: its characters exactly if it is ASCII |
| KnownHosts.SanitizedReadsBack | internal/forward/knownhosts.go:89-103 | the sanitized copy reads back as the same number of lines with exactly the skipped ones blank |
| KnownHosts.WriteSanitized | internal/forward/knownhosts.go:94-103 | the loop writes that copy |
| KnownHosts.SkipLong | internal/forward/knownhosts.go:60-66 | exactly the over-long lines are skipped and warned about |
| KnownHosts.Retry | internal/forward/knownhosts.go:71-86 | within len(lines)+1 rounds every malformed line is skipped in order, and it fails exactly when a file operation does |
| KnownHosts.LoadKnownHosts | internal/forward/knownhosts.go:39-87 | loading yields the lines as they are, or with exactly the malformed and over-long ones blanked, or fails exactly when a needed file operation does |
| KnownHosts.Round | internal/forward/knownhosts.go:71-86 | each round finds everything recovered or names the next line to skip |
| KnownHosts.RecoveredIsExact | internal/forward/knownhosts.go:29-38 | the recovered lines parse, keep the count, and differ from the originals exactly at the bad ones |
| KnownHosts.RecoveryAgreesWithLoading | internal/forward/knownhosts.go:29-43 | a file that loads as it is would lose nothing in recovery |
| JumpChain.HopRoundTrip | internal/config/config.go:804-828 | printing and parsing a hop gives it back exactly when its host has no '@' and its user does not start with white space |
| JumpChain.ParseJumpChain | internal/config/config.go:601-617 | the loop collects the tokens that parse |
| JumpChain.ValidateJump | internal/config/config.go:305-327 | the loop reports the first thing wrong with a chain |
| JumpChain.TrimmedTokens | internal/config/config.go:305-317 | trimming a chain first changes no token beyond its own blanks |
| JumpChain.ValidChainIsComplete | internal/config/config.go:595-617 | a chain that passes validation loses no token in the lenient reading of the dial |
| JumpChain.ExpandJumpHop | internal/config/config.go:499-528 | one hop resolved through its alias, or the cycle it closes |
| JumpChain.ResolveJumpChain | internal/config/config.go:530-549 | the loop resolves and prints a ProxyJump or reports the first failure |
| JumpChain.ResolvesIffNoAliasTwice | internal/config/config.go:499-549 | resolution succeeds exactly when every token is readable and no alias is used twice |
| JumpChain.ResolvedGives | internal/config/config.go:530-549 | a resolved chain has each token's own hop, in order |
| JumpChain.ChainRoundTrip | internal/config/config.go:488-496 | print, join, split and parse give a valid chain back exactly when no name holds a comma and no host an '@' |
| JumpChain.DerivedJumpsAreTheHops | internal/config/config.go:467-549 | Jumps has one entry per token, equal to that token's resolved hop, exactly under that condition |
| JumpChain.Tuber.Resolve | internal/config/config.go:467-497 | the fields after resolveTuber, explicit jump before the alias's, failures included |
| JumpChain.Tuber.ApplyAlias | internal/config/config.go:444-459 | what an alias fills in, and what it leaves |
| JumpChain.HostNameWithAtIsLost | internal/config/config.go:499-549 | through an alias whose HostName holds an '@' the chain resolves and validates, and its one hop is another host and user |
| JumpChain.PreparingSettles | internal/config/config.go:395-410 | preparing twice equals preparing once, as long as `ssh:` is not blank |
| JumpChain.BlankTargetMoves | internal/config/config.go:467-497 | a blank `ssh:` that a catch-all alias fills is resolved further each time |
| JumpChain.PreparingKeepsStaleValues | internal/config/config.go:444-497 | preparing agrees with preparing from nothing exactly when no derived value is left over, or the alias's ProxyJump fails both |
| JumpChain.OldJumpsStay | internal/config/config.go:467-497 | jumps derived for an alias stay when the alias is gone |
| JumpTargets.AddressReads | internal/config/config.go:804-828 | `[user@]host[:port]` reads as it was written, with the OS user and port 22 where it leaves them out |
| JumpTargets.TargetLeads | internal/config/config.go:444-497 | a user or port written in `ssh:` is the one dialed, else the alias's, else the default; HostName, identity, `jump:` and ProxyJump likewise; and when preparing fails |
| JumpTargets.HopLeads | internal/config/config.go:499-528 | the same for a hop of a ProxyJump |
| JumpTargets.ChainReads | internal/config/config.go:595-617 | a `jump:` of addresses is read as those hops in order, through no alias |
| JumpTargets.ValidIff | internal/config/config.go:305-327 | validation accepts a chain exactly if it is blank or every token names a host and a port from 1 to 65535 |
| JumpTargets.ErrorIsTheFirst | internal/config/config.go:305-327 | what it reports is about the first token that does not, and says why |
| JumpTargets.AddressChainIsValidIff | internal/config/config.go:305-327 | a chain of addresses is accepted exactly if every port written in it is in that range |
| ConfigTree.FindKey | internal/config/patch.go:360-367 | the loop finds the first key of that name |
| ConfigTree.FindTuberIndex | internal/config/patch.go:380-387 | the loop finds the first tuber of that name |
| ConfigTree.NamedByItsOwnText | internal/config/patch.go:369-378 | a node has a name exactly if it is a mapping that spells it itself |
| ConfigPatch.Config.Clone | internal/config/patch.go:319-328 | a config equal to the receiver over an array of its own |
| ConfigPatch.Config.RemoveAt | internal/config/patch.go:203-223 | the in-place slide leaves the tubers without that one |
| ConfigPatch.Config.PrepareTubers | internal/config/config.go:395-410 | preparing in place, failing exactly when some tuber does not resolve |
| ConfigPatch.Config.WithTuberAdded | internal/config/patch.go:165-175 | a new object over a new array holds the added config, prepared and validated; neither the receiver nor its array is written |
| ConfigPatch.Config.WithTuberReplaced | internal/config/patch.go:179-199 | the same for a replacement |
| ConfigPatch.Config.WithTuberRemoved | internal/config/patch.go:203-223 | the same for a removal |
| ConfigPatch.Config.WithTuberMoved | internal/config/patch.go:230-254 | the same for a move, out of bounds a plain copy |
| ConfigTree.ConfigFile.AddTuberNode | internal/config/patch.go:59-78 | the file after the edit, or untouched when it fails |
| ConfigTree.ConfigFile.ReplaceTuberNode | internal/config/patch.go:82-105 | the file after the edit, or untouched when it fails |
| ConfigTree.ConfigFile.DeleteTuberNode | internal/config/patch.go:109-128 | the file after the edit, or untouched when it fails |
| ConfigTree.ConfigFile.MoveTuberNode | internal/config/patch.go:137-160 | the file after the swap; out of bounds a success that changes nothing |
| ConfigTree.ConfigFile.SetDefaultsBoolNode | internal/config/patch.go:261-296 | the file after a default is set or removed, creating what is absent |
| ConfigPatch.PreparedAfresh | internal/config/config.go:395-497 | preparing an edited tuber gives the same target and failures as preparing its saved fields, and all the same exactly if nothing stale is left |
| ConfigPatch.AddAgrees | internal/config/patch.go:59-175 | loading the file with a tuber added fails exactly when adding it in memory does, and else gives the same exactly if the tuber holds no stale derived value |
| ConfigPatch.ReplaceAgrees | internal/config/patch.go:82-199 | the same for a replacement, with the same exact condition |
| ConfigPatch.DeleteAgrees | internal/config/patch.go:109-223 | loading the file with a tuber removed always gives what removing it in memory gives, failures included |
| ConfigPatch.MoveAgrees | internal/config/patch.go:137-254 | the same for a move |
| ConfigEdits.LoadedIsFixed | internal/config/config.go:395-410 | a config that loads has distinct names and types and is accepted; preparing it again changes nothing |
| ConfigEdits.PrepareFillsType | internal/config/config.go:400-409 | preparing fills in a blank type with `local` and leaves every other saved field |
| ConfigEdits.AddedIs | internal/config/patch.go:165-175 | adding puts the prepared tuber last; refused exactly if it does not resolve, its name is empty or taken, or the result is not accepted |
| ConfigEdits.ReplacedIs | internal/config/patch.go:179-199 | replacing puts it where the one of that name was; refused for the same reasons |
| ConfigEdits.RemovedIs | internal/config/patch.go:203-223 | removing takes that tuber out and keeps the others in order; refused exactly if the rest is not accepted |
| ConfigEdits.MovedIs | internal/config/patch.go:230-254 | moving swaps two tubers, or nothing when the place is out of bounds; refused exactly if the result is not accepted |
| ConfigEdits.UnknownNameIsRefused | internal/config/patch.go:179-254 | a name no tuber has is refused |
| ConfigPatch.AddIsRefusedIff | internal/config/patch.go:59-78 | the file refuses a new tuber exactly if `tubers:` stands there with nothing under it |
| ConfigPatch.FileFindsIff | internal/config/patch.go:380-387 | the file finds a name exactly if memory does and the node spells it itself |
| ConfigPatch.EmptyNameHitsAnAlias | internal/config/patch.go:369-387 | with an empty name the file's search hits an alias node, and file and memory part |
| ConfigPatch.BlankSshIsResolvedTwice | internal/config/config.go:395-410 | with a blank `ssh:` that a catch-all alias fills even a move by nothing makes them part |
| ConfigTree.EditsTouchTubersOnly | internal/config/patch.go:11-20 | none of the four edits changes what the file holds under another key |
| ConfigTree.MoveBack | internal/config/patch.go:130-160 | moving by d and then by -d restores the file exactly when the first move stays in bounds or the second leaves them |
| ConfigTree.SetThenGet | internal/config/patch.go:256-296 | a default that was set is read back exactly when the key was absent or held a scalar; other defaults stay |
| ConfigTree.SetOverAliasIsLost | internal/config/patch.go:256-296 | a default set over an alias node is not read back |
| ConfigTree.RemoveThenGet | internal/config/patch.go:271-279 | a removed default is gone exactly when it was there at most once; other defaults stay |
| ConfigTree.SetBoolTouchesDefaultsOnly | internal/config/patch.go:256-296 | the rest of the file stays |
| ImportPlan.SanitizeName | internal/importer/plan.go:126-142 | the loop collapses each stretch of foreign characters to one dash |
| ImportPlan.FirstFree | internal/importer/plan.go:99-107 | the least suffix that is not taken exists, by counting the names taken |
| ImportPlan.ClashesAreFew | internal/importer/plan.go:99-105 | no more suffixes can clash than there are names |
| ImportPlan.TuberName | internal/importer/plan.go:91-108 | the suffix loop ends with that name |
| ImportPlan.PlanImport | internal/importer/plan.go:37-78 | the loops give the plan, or none when a host does not resolve |
| ImportPlan.PlanPartitions | internal/importer/plan.go:37-78 | planning fails exactly when a host does not resolve; Add and Skipped are the uncovered and the covered candidates, each in order |
| ImportPlan.PlanNames | internal/importer/plan.go:87-142 | the names are new, pairwise distinct, and valid exactly when the declared port is plain digits |
| ImportPlan.PlusSignMakesBadName | internal/importer/plan.go:87-142 | a candidate whose port is written with a plus sign is planned under an invalid name |
| ImportPlan.ReplanAddsNothing | internal/importer/plan.go:26-78 | planning again on the config with the added tubers adds nothing and skips every candidate |
| ImportNames.NameIsTheWords | internal/importer/plan.go:124-142 | a host pattern becomes its words in lower case, one dash for each stretch of other characters between two and none at the ends |
| ImportNames.NameIs | internal/importer/plan.go:87-108 | a planned name is those words and the declared port; if taken, the same with the least free number from 2 on |
| ImportNames.DeclaredPortIs | internal/importer/plan.go:110-122 | the declared port is the listening side's, alone or behind an address, from 1 to 65535 |
| ImportNames.CoversIff | internal/importer/plan.go:79-85 | two forwards cover each other exactly if type, expanded listen addresses, host and port agree, as long as none holds a bar |
| ImportNames.BarConfuses | internal/importer/plan.go:79-85 | with a bar two different ones can be taken for the same |
| Text.SplitOfJoin | internal/config/config.go:548-548 | splitting a join of lines or tokens free of the separator gives them back |
| Text.TrimTakesEnds | internal/config/sshmatch.go:56-56 | trimming takes white space off the ends and nothing else |
| Text.AtoiOfItoa | internal/config/config.go:510-527 | printing a number of the machine's range and parsing it back loses nothing |

## Left out

- The HTTP interface, tokens, discovery, locking between processes, the TUI, the CLI, service
  installers, Windows code and self-update: foreign calls and plumbing around the modelled state.
- SSH, TCP, SOCKS5, YAML, JSON, globbing and ssh_config decoding: parameters with the laws stated
  where they are used.
- Forwarded connections (acceptLoop, pipe, keepalive): a session is one step whose length is an input;
  the field connectedAt, read without the run's lock, is that input.
- Identity passphrases and the pending host key: the same pattern as the password, with less state.
- Failing renames and removals of archives: taken to succeed; all operations on the current file may
  fail. The age limit is a duration; the overflow of a limit of more than 292 years is not modelled.
- Sharing inside a YAML tree: the tree is a value held by the file object, so aliasing between nodes is
  not modelled; nor are merge keys, an alias in place of the `tubers:` sequence, and the sharing of tag
  slices between a config and its clone.
- Expansion of `%d`, `%h`, `%u` and `~` in identities: a parameter.
- The depth argument of resolveJumpChain: its only call passes zero, so the cap is never met.
- Windows line ends in known_hosts: part of what the grammar parameter says of a line.
- PasswordDial.RecognisedByText: how the SSH library words a refused authentication is taken from the comment at `internal/forward/password.go:181-193`.
- SshMatch.FilterPreservesMeaning: stated for text without Include; SshSplice.FilterPreservesSplicedMeaning has the Includes.
- SshMatch.LenientPreservesMeaning: the same; SshSplice.LenientPreservesSplicedMeaning has the Includes.
- SshSplice.FilterPreservesSplicedMeaning: SshSplice.FileEndsInDroppedBlock and SshSplice.DroppedIncludeOpensBlock show it fail where an included file ends in a dropped block, or a dropped Include brings a header.
- ConfigPatch.AddAgrees: every tuber of the loaded config has a non-blank `ssh:`, without which ConfigPatch.BlankSshIsResolvedTwice shows the agreement to fail, and so has the new one unless nothing was derived for it yet. Mappings have as many values as keys, as YAML ensures. When the file refuses the edit is the subject of ConfigPatch.AddIsRefusedIff.
- ConfigPatch.ReplaceAgrees: the same on `ssh:`; the name is not empty (ConfigPatch.EmptyNameHitsAnAlias), and neither it nor its key is written through an alias or as base64 (`!!binary`), whose text and value differ. When the file finds the name is the subject of ConfigPatch.FileFindsIff.
- ConfigPatch.DeleteAgrees: the same on `ssh:` and the name.
- ConfigPatch.MoveAgrees: the same on `ssh:` and the name.
- ConfigPatch.FileFindsIff: the same on `ssh:` and the name.
- ImportPlan.ReplanAddsNothing: the candidates' hosts are not blank, as every scanned candidate's is.
- JumpChain.PreparingSettles: needs a non-blank `ssh:`; JumpChain.BlankTargetMoves shows it fail without.
- JumpChain.PreparingKeepsStaleValues: the same.
