# NoriShell core, modelled and proved in Dafny

NoriShell is a desktop SSH client: a Rust core owns sessions and port forwards, and a TypeScript
shell owns windows, tabs and terminal input. This project models the parts whose correctness is
hardest to see from one function at a time, and proves what they promise for every input, every
run and every interleaving.

Code that waits is split at its awaits. Each piece is a function from state to state, an event says
which await ended and how, and the main theorems quantify over all event sequences. Beside the
functions stand classes with the original's fields; each method is proved to do exactly the step
that the theorems are about. `dfyconfig.toml` names all files.

| files | component |
|---|---|
| RevisionToken, ConnectionProfile | connection sources and the tokens that fence them |
| InputHistory, TabHeader, TabShell, TabShellState | tab views and the hand-over of input between them |
| FocusBroker, InputTicket | which terminal may receive input, and captured input tickets |
| Socks5, Relay, ForwardSession, ForwardActor, ExitGate | port forwarding, its cleanup, and exit |
| PluginBridge | the bounded request bridge to isolated plugins |
| ShortcutKeys, Shortcuts | canonical keyboard shortcuts |
| RestorePlan, TelnetMatching, PaneUse, RestorePlanner, SyntheticLayout | restoring the terminal workspace at start |
| LayoutMerge | the layout that several windows share |
| FileRecovery, FileRestore | directory capabilities of recovered file tabs |
| HintWorker | coalesced connectivity hints |
| OutputGeometry, GeometryHandoff | compressed terminal sizes and their hand-over |

## Where the code does less than one would expect

Each of these is a theorem with the exact condition, and beside it a concrete input or run.

- Activating the already active view again, when showing it fails before the request is sent, drops
  the selection without releasing input; the next activation then overlaps (`ActivateSameExactly`,
  `FailedReactivationOverlaps`).
- An active view without a Header summary is not released, neither when another view is activated nor
  when a shell page is shown. It then shares its input with the other view, or keeps it while nothing
  is selected. This needs activations of views that the Header does not list yet
  (`UnlistedSwitchExactly`, `UnlistedPageExactly`, `UnlistedActivationsOverlap`, `UnlistedPageDrops`).
- A takeover of a Pane that is not registered, or one that cannot read the focus epoch, leaves the
  pending flag set, so no target is current until another intent finishes (`PendingAtRest`,
  `UnknownTakeoverLeavesPendingSet`, `UnreadEpochLeavesPendingSet`).
- A stop removes its session by id after waiting. If the id was started again meanwhile, it removes the
  new session: one that is uncertain no longer blocks exit, and one that still runs never will
  (`AccountedExactly`, `ReusedIdLosesUncertainSession`, `RemovedSessionEndsUncertain`).
- A response without a reply leaves its call without an answer, for example an approval that is
  answered with another pending action (`NothingIsDroppedExactly`, `ApprovalAskedAgain`).
- Plugin sessions are not compared with the claimed ones when the workspace is restored
  (`ClaimedIsPlacedExactly`, `ClaimedPluginSessionIsPlaced`).
- Two live sessions can be restored into one saved pane, because the panes that sessions name
  themselves are not compared (`PaneUsedOnceExactly`, `TwoShellsShareAPane`).
- Directory capabilities of a staged file tab are dropped without release when the tab is imported
  again after the store has forgotten it, and, by import, discard and activate alone, when an
  activation ends after its tab was discarded and imported again (`RunLosesExactly`,
  `ForgottenStageLoses`, `LateActivationLoses`).
- Recording terminal sizes has no limit, but a hand-over with more than 4096 of them is refused
  (`RecordedIsAcceptedExactly`, `ManyChangesAreRefused`).

## Model

| member | source | states |
|---|---|---|
| `RevisionToken.TextRoundTrip` | src-tauri/src/connection_profile.rs:655-657 | a length-prefixed text is read back whole, whatever separators it contains, and leaves the rest |
| `RevisionToken.CredentialsRoundTrip` | src-tauri/src/connection_profile.rs:740-752 | a decoder recovers the ordered credential list from its token and stops where the list ends |
| `RevisionToken.IngressRoundTrip` | src-tauri/src/connection_profile.rs:626-653 | the decoder recovers the proxy's credential revision and user name, or that none is used: a direct route and a proxy without authentication are written alike |
| `RevisionToken.JumpRoundTrip` | src-tauri/src/connection_profile.rs:701-723 | the decoder recovers one hop: Host, versions, effective user name, plan revisions and credentials |
| `RevisionToken.JumpsRoundTrip` | src-tauri/src/connection_profile.rs:594-598 | the whole ordered jump chain is recovered, including the empty chain |
| `RevisionToken.BaseRoundTrip` | src-tauri/src/connection_profile.rs:592-610 | the base token is uniquely decodable, followed by any text that can end a credential list |
| `RevisionToken.TerminalRoundTrip` | src-tauri/src/connection_profile.rs:490-495 | the terminal token is decoded to all its sources |
| `RevisionToken.MetricsRoundTrip` | src-tauri/src/connection_profile.rs:526-530 | the metrics token is decoded to all its sources |
| `RevisionToken.BaseTokenIsInjective` | src-tauri/src/connection_profile.rs:599-610 | equal base tokens were written from equal sources |
| `RevisionToken.TerminalTokenIsInjective` | src-tauri/src/connection_profile.rs:490-495 | equal terminal tokens were written from equal sources |
| `RevisionToken.MetricsTokenIsInjective` | src-tauri/src/connection_profile.rs:526-530 | equal metrics tokens were written from equal sources |
| `ConnectionProfile.ResolveJumps` | src-tauri/src/connection_profile.rs:586-591 | the chain resolves exactly when every hop does, hop by hop and in order |
| `ConnectionProfile.FirstFailureEndsIt` | src-tauri/src/connection_profile.rs:586-591 | a chain that fails returns the error of the first hop that fails |
| `ConnectionProfile.EqualBaseTokens` | src-tauri/src/connection_profile.rs:571-624 | two resolutions with one token, even of different Hosts and stores, used the same Host revision, effective user, plan revisions, proxy credential and its user name, hops and credentials |
| `ConnectionProfile.EqualTerminalTokens` | src-tauri/src/connection_profile.rs:446-502 | equal terminal tokens mean equal sources, heartbeat and login revisions |
| `ConnectionProfile.EqualMetricsTokens` | src-tauri/src/connection_profile.rs:504-536 | equal metrics tokens mean equal sources and monitoring revision |
| `ConnectionProfile.AllowedJumpsAreSimple` | src-tauri/src/connection_profile.rs:659-676 | the counting test accepts exactly the chains within the limit that repeat no Host and avoid the target |
| `ConnectionProfile.VaultIsRequiredWhenNoPlanAvoidsIt` | src-tauri/src/connection_profile.rs:345-393 | with a credential at every stage, the Vault is required exactly when every choice of one credential per stage needs it |
| `InputHistory.HoldingMeans` | src/workspace-tab-view-shell.ts:277-314 | a view holds input exactly when one of its activations was followed neither by a release nor by its departure |
| `InputHistory.UnreleasedMeans` | src/workspace-tab-view-shell.ts:277-287 | a view counts as unreleased exactly when a release of it failed and it was not activated since |
| `InputHistory.OneHolder` | src/workspace-tab-view-shell.ts:271-370 | without overlap at most one view holds input for another reason than a failed release |
| `TabHeader.ReplacementIsUndone` | src/workspace-tab-view-state.ts:32-49 | a creation that took over a tab's Header place and failed gives back that very place |
| `TabHeader.FallbackIsNearest` | src/workspace-tab-view-state.ts:51-63 | the fallback is the nearest remaining tab before the removed one, otherwise the nearest after it, and missing only if none remains |
| `TabHeader.FallbackAfterRemoval` | src/workspace-tab-view-state.ts:51-63 | the two searching loops compute that fallback |
| `TabShell.ActivateKeepsUnlessSame` | src/workspace-tab-view-shell.ts:343-370 | activating another view keeps the input claim, whatever fails at whatever await |
| `TabShell.ActivateSameExactly` | src/workspace-tab-view-shell.ts:343-370 | activating the active view again, listed or not, keeps the claim exactly when it does not hold input while its show fails before the request is sent |
| `TabShell.CreateNewKeepsInv` | src/workspace-tab-view-shell.ts:546-627 | creating a tab, with failures at any step and its roll-back, keeps the claim |
| `TabShell.PageKeepsInv` | src/workspace-tab-view-shell.ts:406-431 | leaving to a shell page keeps the claim |
| `TabShell.HandOffKeepsInv` | src/workspace-tab-view-shell.ts:433-451 | handing over from a closing view keeps the claim |
| `TabShell.RunKeepsInv` | src/workspace-tab-view-shell.ts:271-275 | the claim holds in every serialized run of operations that forgets no holder |
| `TabShell.InputIsHandedOver` | src/workspace-tab-view-shell.ts:271-370 | over every such run: no activation was sent while another view held input, and only the active view holds input, both up to failed releases |
| `TabShell.ForgottenHolderOverlaps` | src/workspace-tab-view-shell.ts:343-370 | once a holder is forgotten, the next activation of any other view overlaps with it |
| `TabShell.ActiveHolderIsListed` | src/workspace-tab-view-shell.ts:289-293 | in every run that forgets no holder an active view that holds input has a Header summary, so it is not skipped by the release |
| `TabShell.UnlistedHolderOverlapsExactly` | src/workspace-tab-view-shell.ts:289-370 | release is skipped for an active view without a Header summary; for any replies, activating another view then sends input to two views exactly when that activation is sent while the old view holds input |
| `TabShell.UnlistedSwitchExactly` | src/workspace-tab-view-shell.ts:289-370 | for any replies, that activation keeps the whole claim exactly when it is neither sent too early nor ends with another selection, or none, while the old view holds input |
| `TabShell.UnlistedPageExactly` | src/workspace-tab-view-shell.ts:406-431 | leaving such a view for a shell page keeps the claim exactly when it holds no input or leaves during one of the two awaits |
| `TabShell.UnlistedIsSafeExactly` | src/workspace-tab-view-shell.ts:289-431 | whatever the replies, both are safe exactly when the view holds no input |
| `TabShell.UnlistedPageDrops` | src/workspace-tab-view-shell.ts:406-431 | from an empty shell: a view that is activated before the Header lists it and left for a shell page keeps its input while nothing is selected |
| `TabShell.UnlistedActivationsOverlap` | src/workspace-tab-view-shell.ts:289-314 | from an empty shell: two views that are activated one after the other before the Header lists them both hold input |
| `TabShell.FailedReactivationOverlaps` | src/workspace-tab-view-shell.ts:316-370 | a concrete run of four operations in which two views hold input |
| `TabShellState.WorkspaceTabShell.AwaitReply` | src/workspace-tab-view-shell.ts:98-144 | the method on the shell's fields does exactly the specified step: one await: a reply, departures and arrivals while waiting |
| `TabShellState.WorkspaceTabShell.ActivateView` | src/workspace-tab-view-shell.ts:343-370 | the method on the shell's fields does exactly the specified step: the whole activation with its roll-back |
| `TabShellState.WorkspaceTabShell.ShowShellRoute` | src/workspace-tab-view-shell.ts:406-431 | the method on the shell's fields does exactly the specified step: leaves to a shell page |
| `TabShellState.WorkspaceTabShell.HandOffClosingView` | src/workspace-tab-view-shell.ts:433-451 | the method on the shell's fields does exactly the specified step: activates the fallback of a closing view |
| `TabShellState.WorkspaceTabShell.CreateManagedTab` | src/workspace-tab-view-shell.ts:535-628 | the method on the shell's fields does exactly the specified step: creates a tab or activates it if it exists |
| `TabShellState.WorkspaceTabShell.RunOperations` | src/workspace-tab-view-shell.ts:271-275 | the fields after any sequence of queued operations are those of the specified run; if no holder is forgotten, no activation overlapped and only the active view holds input, up to failed releases |
| `FocusBroker.NextKeepsInv` | src/terminal-input-target.ts:29-128 | every step of register, replace, unregister, focus, takeover, reply and failure keeps the broker invariant |
| `FocusBroker.LeaseHolderIsUnique` | src/terminal-input-target.ts:116-128 | a lease has one holder, the acknowledged registration, which is still registered under its id |
| `FocusBroker.CurrentIsNewestAcknowledged` | src/terminal-input-target.ts:91-100 | a current target exists only when no intent is outstanding and the newest one was acknowledged for it |
| `FocusBroker.StaleReplyChangesNoFocus` | src/terminal-input-target.ts:272-292 | a late reply or failure of an older intent changes no lease and no focus, and leaves the newer intent pending |
| `FocusBroker.LastEndLeavesPendingExactly` | src/terminal-input-target.ts:29-73 | the step that ends the last outstanding intent leaves the pending flag set exactly when it starts a takeover without a Pane, or fails to read an unknown epoch for one |
| `FocusBroker.UnknownPaneExactly` | src/terminal-input-target.ts:33-39 | a takeover is queued without a Pane exactly when the Pane is not registered |
| `FocusBroker.RestKeepsPending` | src/terminal-input-target.ts:29-73 | at rest nothing but a new intent changes the flag |
| `FocusBroker.PendingAtRest` | src/terminal-input-target.ts:29-73 | in every run, when all intents are finished, the flag is still set exactly when the event that ended the last one abandoned a takeover of a Pane that was not registered when asked for, or one whose epoch could not be read |
| `FocusBroker.UnknownTakeoverLeavesPendingSet` | src/terminal-input-target.ts:33-40 | after any run at rest, taking over an unknown Pane leaves the flag set with nothing queued to clear it |
| `FocusBroker.UnreadEpochLeavesPendingSet` | src/terminal-input-target.ts:41 | so does taking over a registered Pane while no epoch is known and it cannot be read |
| `FocusBroker.FirstTakeoverLeavesPendingSet` | src/terminal-input-target.ts:41 | a run from the start with one registered Pane |
| `FocusBroker.TerminalInputFocus.CurrentTarget` | src/terminal-input-target.ts:91-100 | the method on the module's variables does exactly the specified step: the current target, if any |
| `FocusBroker.TerminalInputFocus.RegisterTarget` | src/terminal-input-target.ts:230-234 | the method on the module's variables does exactly the specified step: registration, which takes the lease of a replaced one |
| `FocusBroker.TerminalInputFocus.UnregisterTarget` | src/terminal-input-target.ts:235-243 | the method on the module's variables does exactly the specified step: withdrawal of exactly this registration |
| `FocusBroker.TerminalInputFocus.FocusTarget` | src/terminal-input-target.ts:249-297 | the method on the module's variables does exactly the specified step: a focus intent, or nothing when already focused |
| `FocusBroker.TerminalInputFocus.TakeoverTarget` | src/terminal-input-target.ts:29-40 | the method on the module's variables does exactly the specified step: a takeover intent with the registration captured now |
| `FocusBroker.TerminalInputFocus.StartQueued` | src/terminal-input-target.ts:268-273 | the method on the module's variables does exactly the specified step: the next queued intent begins |
| `FocusBroker.TerminalInputFocus.ApplyAcknowledgedFocus` | src/terminal-input-target.ts:116-128 | the method on the module's variables does exactly the specified step: leases and acknowledged focus after a reply, by the loop over all targets |
| `FocusBroker.TerminalInputFocus.FocusAcknowledged` | src/terminal-input-target.ts:272-281 | the method on the module's variables does exactly the specified step: the continuation of a successful reply |
| `FocusBroker.TerminalInputFocus.FocusFailed` | src/terminal-input-target.ts:282-292 | the method on the module's variables does exactly the specified step: the continuation of a failure |
| `FocusBroker.TerminalInputFocus.HandleEvents` | src/terminal-input-target.ts:225-297 | any sequence of events on the variables keeps the broker invariant, so at most one registration holds a lease |
| `InputTicket.RunKeepsInv` | src/terminal-input-target.ts:153-222 | the invariant of broker and tickets holds in every interleaving of their steps |
| `InputTicket.LeaseIsExclusive` | src/terminal-input-target.ts:116-128 | in every run at most one registration holds a lease, the acknowledged and still registered one |
| `InputTicket.InputFollowsNewestIntent` | src/terminal-input-target.ts:246-297 | in every run a target is current only while the newest intent is acknowledged for it |
| `InputTicket.TicketActsOnce` | src/terminal-input-target.ts:202-220 | in every run a ticket performs at most one action |
| `InputTicket.TicketActsOnCapturedTarget` | src/terminal-input-target.ts:167-222 | when it acts, the captured registration is registered with the captured fingerprint and every intent since capture was the ticket's own |
| `InputTicket.TerminalInput.IsValid` | src/terminal-input-target.ts:176-180 | the method on the variables of broker and tickets does exactly the specified step, and nothing else changes: validity |
| `InputTicket.TerminalInput.CaptureInput` | src/terminal-input-target.ts:167-175 | the method on the variables of broker and tickets does exactly the specified step, and nothing else changes: capture of the current target |
| `InputTicket.TerminalInput.SuspendInput` | src/terminal-input-target.ts:194-201 | the method on the variables of broker and tickets does exactly the specified step, and nothing else changes: suspension up to its await |
| `InputTicket.TerminalInput.BeginResume` | src/terminal-input-target.ts:181-185 | the method on the variables of broker and tickets does exactly the specified step, and nothing else changes: resumption up to its await |
| `InputTicket.TerminalInput.FinishResume` | src/terminal-input-target.ts:186-188 | the method on the variables of broker and tickets does exactly the specified step, and nothing else changes: resumption after its await |
| `InputTicket.TerminalInput.Decide` | src/terminal-input-target.ts:202-220 | the method on the variables of broker and tickets does exactly the specified step, and nothing else changes: the decision to act, which consumes the ticket |
| `InputTicket.TerminalInput.RunSteps` | src/terminal-input-target.ts:153-222 | any interleaving of broker and ticket steps keeps the joint invariant, and no ticket acts twice |
| `Socks5.HandshakeRoundTrip` | src-tauri/src/forward_session_service.rs:2163-2287 | reading is a left inverse of encoding a CONNECT request, and leaves every later byte unread |
| `Socks5.AcceptedWasEncoded` | src-tauri/src/forward_session_service.rs:2163-2287 | whatever is accepted is the encoding of the target read, and exactly its bytes were consumed |
| `Socks5.AcceptsExactly` | src-tauri/src/forward_session_service.rs:2163-2287 | a target is read exactly from the inputs that begin with one of its encodings |
| `Socks5.ResultIgnoresTheRest` | src-tauri/src/forward_session_service.rs:2289-2299 | a result other than truncation depends only on the consumed bytes |
| `Socks5.ProperPrefixIsTruncated` | src-tauri/src/forward_session_service.rs:2289-2299 | every proper prefix of a valid handshake is truncated, without an error reply |
| `Socks5.EarlyResultIsFinal` | src-tauri/src/forward_session_service.rs:2163-2287 | a result reached on a part of the stream is the result for the whole stream |
| `Socks5.HandshakeWritesOrderly` | src-tauri/src/forward_session_service.rs:2163-2320 | at most one method selection, first, and at most one error reply, last; refusal of the methods is written exactly for rejected authentication |
| `Socks5.SuccessReplyMeansOpened` | src-tauri/src/forward_session_service.rs:2101-2155 | the success reply is sent exactly when the request was valid and the channel was opened; after a valid request there is no reply exactly when the open request could not be sent |
| `Socks5.WireIsReadable` | src-tauri/src/forward_session_service.rs:2301-2320 | the bytes sent back tell which messages they are: a selection of two bytes and a reply of ten |
| `Socks5.SocksStream.ReadExact` | src-tauri/src/forward_session_service.rs:2289-2299 | reads the asked number of bytes, or takes the rest and reports truncation |
| `Socks5.SocksStream.ReadSocks5Request` | src-tauri/src/forward_session_service.rs:2163-2287 | the reader over a stream has the specified result, consumption and writes |
| `Relay.TransferIsFaithful` | src-tauri/src/forward_session_service.rs:2350-2394 | one transfer passes on what it read, or stops with a prefix of it; bytes are counted exactly when written in full |
| `Relay.EveryStepIsFaithful` | src-tauri/src/forward_session_service.rs:2335-2394 | at every step of every relay each output is a prefix of its input, counters are exact and at most one direction is behind |
| `Relay.SuccessDeliversEverything` | src-tauri/src/forward_session_service.rs:2335-2394 | a relay that reports success delivered both streams whole, with one shutdown each |
| `Relay.RelayTerminates` | src-tauri/src/forward_session_service.rs:2335-2394 | on finite streams the loop ends |
| `Relay.RelayLoop.Step` | src-tauri/src/forward_session_service.rs:2350-2394 | one turn of the loop over shared endpoints and wrapping 64-bit counters is the specified turn |
| `Relay.RelayWithIdleTimeout` | src-tauri/src/forward_session_service.rs:2335-2394 | the loop terminates, reaches the specified end state, and on success both peers received everything |
| `ForwardSession.StepKeepsInv` | src-tauri/src/forward_session_service.rs:1528-1793 | every event keeps the published chain, the resource order and the cleanup facts consistent |
| `ForwardSession.RunKeepsInv` | src-tauri/src/forward_session_service.rs:1528-1793 | so does every run of every rule |
| `ForwardSession.LifecycleIsObeyed` | src-tauri/src/forward_session_service.rs:2503-2515 | published summaries follow the lifecycle graph, never take back a revision or a count, end at a terminal state, and are uncertain exactly when some cleanup step is; Stopped is never uncertain |
| `ForwardSession.ResourcesAreReleased` | src-tauri/src/forward_session_service.rs:2404-2457 | a finished run never obtained the transport or disconnected it once and last; a registered remote listener was cancelled once with its assigned port, before the children were aborted |
| `ForwardSession.ResourcesStayInOrder` | src-tauri/src/forward_session_service.rs:2404-2457 | at any point what was done is the beginning of such a use |
| `ForwardSession.ChildrenAreCounted` | src-tauri/src/forward_session_service.rs:1824-2026 | while listening the published child count is the number of live children, within the limit |
| `ForwardSession.OverIsFinal` | src-tauri/src/forward_session_service.rs:1784-1792 | a finished session never changes its summary again |
| `ForwardSession.StoppedExactly` | src-tauri/src/forward_session_service.rs:1761-1786 | cleanup ends in Stopped exactly for a stop with the right generation and no uncertain step |
| `ForwardActor.SessionActor.RecordChildResult` | src-tauri/src/forward_session_service.rs:2459-2476 | the method on the session's fields does exactly the specified step: a child's result |
| `ForwardActor.SessionActor.SyncTrafficSummary` | src-tauri/src/forward_session_service.rs:2486-2501 | the method on the session's fields does exactly the specified step: traffic counters copied into the summary |
| `ForwardActor.SessionActor.CleanUp` | src-tauri/src/forward_session_service.rs:2404-2457 | the method on the session's fields does exactly the specified step: cleanup up to its first await |
| `ForwardActor.SessionActor.RecordCancel` | src-tauri/src/forward_session_service.rs:2404-2425 | the method on the session's fields does exactly the specified step: the remote cancellation's outcome |
| `ForwardActor.SessionActor.RecordDisconnect` | src-tauri/src/forward_session_service.rs:2440-2457 | the method on the session's fields does exactly the specified step: the disconnect's outcome and the final state |
| `ForwardActor.SessionActor.WhileConnecting` | src-tauri/src/forward_session_service.rs:1546-1572 | the method on the session's fields does exactly the specified step: the connecting phase |
| `ForwardActor.SessionActor.WhilePreparing` | src-tauri/src/forward_session_service.rs:1574-1747 | the method on the session's fields does exactly the specified step: the set-up phase |
| `ForwardActor.SessionActor.WhileListening` | src-tauri/src/forward_session_service.rs:1824-2026 | the method on the session's fields does exactly the specified step: the listening phase |
| `ForwardActor.SessionActor.RunSession` | src-tauri/src/forward_session_service.rs:1528-1793 | the session reaches the specified state for every event sequence, and the invariant holds there |
| `ExitGate.ActorContinues` | src-tauri/src/forward_session_service.rs:1528-1793 | session tasks never replace a terminal summary, keep the generation, and are Stopped only without uncertainty |
| `ExitGate.RunKnows` | src-tauri/src/forward_session_service.rs:1339-1499 | in every run, sessions, calls and handles stay consistent: each names a session that was started under its id |
| `ExitGate.NextKeepsInv` | src-tauri/src/forward_session_service.rs:1339-1499 | every step of start, progress, stop, confirmation and shutdown, interleaved at every await, keeps the gate invariant exactly when it does not overtake: a call whose own session ended with certainty takes away another session under its id that has not |
| `ExitGate.RunKeepsInv` | src-tauri/src/forward_session_service.rs:1339-1499 | every run without such a step keeps it |
| `ExitGate.AccountedExactly` | src-tauri/src/forward_session_service.rs:1357-1367 | at every point of a run each session is in the map or ended with certainty, exactly when no step overtakes |
| `ExitGate.LostNextExactly` | src-tauri/src/forward_session_service.rs:1357-1367 | a session is unaccounted for exactly when the next summary its task may publish leaves it failed and uncertain outside the map |
| `ExitGate.SoundNeverOvertakes` | src-tauri/src/forward_session_service.rs:1357-1367 | nothing is overtaken when no id is started again while a call for it waits |
| `ExitGate.UncertainSessionIsKept` | src-tauri/src/forward_session_service.rs:1371-1443 | in every such run an uncertain session is still in the map, and blocks exit exactly while no confirmation of its generation and revision is held |
| `ExitGate.ReusedIdLosesUncertainSession` | src-tauri/src/forward_session_service.rs:1339-1369 | a concrete run in which a late stop removes an uncertain session, after which nothing blocks exit |
| `ExitGate.RemovedSessionEndsUncertain` | src-tauri/src/forward_session_service.rs:1339-1369 | a concrete run in which a late stop removes a session that is still starting, which then ends uncertain and blocks nothing |
| `ExitGate.SummariesAreProduced` | src-tauri/src/forward_session_service.rs:1528-1793 | the session task publishes the two summaries of that run |
| `ExitGate.ShutDownAgrees` | src-tauri/src/forward_session_service.rs:1445-1499 | an uninterrupted shutdown treats every session by its state before, in any order: which pass, which remain, which confirmations are used |
| `ExitGate.UnblockedShutdownSucceeds` | src-tauri/src/forward_session_service.rs:1445-1499 | with no blocker it succeeds, uses up every confirmation, and leaves exactly the uncertain sessions, which block again |
| `ExitGate.ReachableShutdown` | src-tauri/src/forward_session_service.rs:1371-1389 | reachable states meet its assumptions: confirmations belong to unchanged uncertain sessions |
| `ExitGate.UninterruptedIsShutDown` | src-tauri/src/forward_session_service.rs:1445-1499 | the interleaved model's own steps of a shutdown, taken without interruption, reach exactly the state of that shutdown |
| `ExitGate.UnblockedShutdownInRun` | src-tauri/src/forward_session_service.rs:1445-1499 | so a run without blockers can go on to a state with no confirmation left and exactly the uncertain sessions, which block again |
| `ExitGate.ReportMeans` | src-tauri/src/forward_session_service.rs:1445-1499 | a shutdown answers with the first problem in the order of its sessions, judged before it began, and has none exactly when every session passes |
| `ExitGate.ReportHasAll` | src-tauri/src/forward_session_service.rs:1445-1499 | without a problem it answers with one summary per session, in order: the terminal one, or the one the stop returned |
| `ExitGate.ForwardSessionService.ExitBlockers` | src-tauri/src/forward_session_service.rs:1371-1389 | lists exactly the blocking ids, each once |
| `ExitGate.ForwardSessionService.RetainForExitOnce` | src-tauri/src/forward_session_service.rs:1391-1432 | accepts exactly a confirmed, matching fence of an uncertain failed session, and removes that blocker and no other |
| `ExitGate.ForwardSessionService.ConsumeRetainedExit` | src-tauri/src/forward_session_service.rs:1434-1443 | takes the confirmation and says whether it matched |
| `ExitGate.ForwardSessionService.ShutdownAll` | src-tauri/src/forward_session_service.rs:1445-1499 | the loop over all sessions reaches the state of the specified shutdown and returns its summaries or its first problem |
| `PluginBridge.EveryCallIsInOnePlace` | src/plugin-isolated-bridge.ts:31-140 | in every run each call that reached the bridge is in exactly one of: queued, in flight, awaiting approval, answered, discarded by disposal, dropped by a response without reply |
| `PluginBridge.QueueIsBounded` | src/plugin-isolated-bridge.ts:39-45 | at most eight calls are queued, an approval waits alone, and a queued call always has a request before it |
| `PluginBridge.RequestsAreNumbered` | src/plugin-isolated-bridge.ts:88-105 | request numbers are consecutive, calls are sent in arrival order and once, and deactivation is sent exactly at the end, once, last |
| `PluginBridge.DropsExactly` | src/plugin-isolated-bridge.ts:61-62 | a step leaves a call unanswered exactly when an accepted response to it has no reply, and for a call no pending action either |
| `PluginBridge.NothingIsDroppedExactly` | src/plugin-isolated-bridge.ts:107-131 | a run drops no call exactly when none of its responses is silent |
| `PluginBridge.AtRestEveryCallIsAnswered` | src/plugin-isolated-bridge.ts:107-131 | without silent responses every call of an idle bridge was answered exactly once, unless it was disposed |
| `PluginBridge.DroppedIsNeverAnswered` | src/plugin-isolated-bridge.ts:107-131 | once a call was dropped, no continuation of the run answers it |
| `PluginBridge.ApprovalIsAsked` | src/plugin-isolated-bridge.ts:114-121 | a run from the start that waits for an approval |
| `PluginBridge.ApprovalAskedAgain` | src/plugin-isolated-bridge.ts:55-69 | in any run, an approval answered by another pending action leaves the bridge waiting for nothing and its call unanswered in every continuation |
| `PluginBridge.PluginIsolatedBridge.Receive` | src/plugin-isolated-bridge.ts:37-46 | the method on the bridge's fields does exactly the specified step: an arriving call |
| `PluginBridge.PluginIsolatedBridge.Drain` | src/plugin-isolated-bridge.ts:107-113 | the method on the bridge's fields does exactly the specified step: sending the next call |
| `PluginBridge.PluginIsolatedBridge.DecidePending` | src/plugin-isolated-bridge.ts:55-86 | the method on the bridge's fields does exactly the specified step: approval and cancellation up to their await |
| `PluginBridge.PluginIsolatedBridge.DisposeBridge` | src/plugin-isolated-bridge.ts:88-98 | the method on the bridge's fields does exactly the specified step: disposal |
| `PluginBridge.PluginIsolatedBridge.FlushQueue` | src/plugin-isolated-bridge.ts:119-121 | the method on the bridge's fields does exactly the specified step: answering every queued call with busy, in order |
| `PluginBridge.PluginIsolatedBridge.Resume` | src/plugin-isolated-bridge.ts:114-130 | the method on the bridge's fields does exactly the specified step: the continuation of a response |
| `PluginBridge.PluginIsolatedBridge.HandleEvents` | src/plugin-isolated-bridge.ts:31-140 | any sequence of events on the fields: every call is in one place, the queue is bounded, requests are numbered and in order |
| `ShortcutKeys.SupportedStays` | src/shortcuts.ts:184-291 | every supported code is plain text and its own normal form |
| `ShortcutKeys.ModifierStays` | src/shortcuts.ts:183-291 | so is every modifier |
| `Shortcuts.ScanMeans` | src/shortcuts.ts:297-309 | reading looks only at which names occur: exactly the modifiers once each and at most one supported code, in any order |
| `Shortcuts.ParseShortcutParts` | src/shortcuts.ts:293-310 | the loop computes that reading |
| `Shortcuts.BindingRoundTrip` | src/shortcuts.ts:293-314 | reading a built binding gives back its modifiers and code |
| `Shortcuts.AcceptedExactly` | src/shortcuts.ts:324-342 | a text is accepted exactly when it is short, readable, suits platform and scope, and is not reserved; its binding reads as the text does |
| `Shortcuts.ValidateIsProjection` | src/shortcuts.ts:324-342 | an accepted text maps to a binding that validates to itself |
| `Shortcuts.SameBindingExactly` | src/shortcuts.ts:312-342 | two accepted texts share a binding exactly when they have the same modifiers and code |
| `Shortcuts.MatchesExactly` | src/shortcuts.ts:450-458 | an event matches a binding exactly when the binding reads as the event's modifiers and code |
| `Shortcuts.RecordedMatches` | src/shortcuts.ts:388-402 | a binding recorded from an event matches that event |
| `Shortcuts.AtMostOneMatches` | src/shortcuts.ts:471-482 | in a validated set at most one command matches an event |
| `Shortcuts.ValidateBindingSet` | src/shortcuts.ts:510-527 | a profile is accepted exactly when all commands have valid bindings and none is used twice; the result is a valid set of normal forms |
| `Shortcuts.MatchShortcut` | src/shortcuts.ts:471-482 | in a valid set the loop returns the command that matches, and none exactly when none does |
| `RestorePlan.NoSessionTwice` | src/workspace-tab-terminal-restore.ts:118-163 | over all tabs of the plan no live session occurs twice |
| `RestorePlan.PlacedIsInPlan` | src/workspace-tab-terminal-restore.ts:156-160 | every session that was given a place is in the tab it was given |
| `RestorePlan.TabIdsAreDistinct` | src/workspace-tab-terminal-restore.ts:97-163 | the plan's tab ids are distinct and none is registered |
| `RestorePlan.ActiveTabIsPlanned` | src/workspace-tab-terminal-restore.ts:161-163 | the active tab is one of the planned ones, and missing only from an empty plan |
| `RestorePlan.AttachedIsPlacedExactly` | src/workspace-tab-terminal-restore.ts:124-130 | an SSH or local session is placed exactly when it is unclaimed, no registered tab shows it, and a saved pane or a new tab is possible |
| `PaneUse.TelnetIsPlacedExactly` | src/workspace-tab-terminal-restore.ts:131-143 | a telnet session is placed exactly when it is unclaimed, and a saved pane of its endpoint is left for it or a new tab is possible |
| `RestorePlan.ClaimedIsPlacedExactly` | src/workspace-tab-terminal-restore.ts:99-154 | a claimed session is placed exactly when it is a plugin session of an unregistered tab that has its pane or is unknown |
| `RestorePlan.ClaimedPluginSessionIsPlaced` | src/workspace-tab-terminal-restore.ts:146-153 | a concrete claimed plugin session that is placed |
| `TelnetMatching.TakenAreTargets` | src/workspace-tab-terminal-restore.ts:131-143 | the k-th unclaimed session of an endpoint takes the k-th saved pane of that endpoint |
| `TelnetMatching.MatchingIsMaximal` | src/workspace-tab-terminal-restore.ts:131-143 | for every endpoint the number of matched panes is the smaller of unclaimed sessions and saved panes |
| `TelnetMatching.MatchingIsInjective` | src/workspace-tab-terminal-restore.ts:137-141 | no saved pane is given to two telnet sessions |
| `TelnetMatching.MatchingSuits` | src/workspace-tab-terminal-restore.ts:137-141 | a telnet session returns only to a pane of its own endpoint, in that pane's tab |
| `PaneUse.UsedAsAsked` | src/workspace-tab-terminal-restore.ts:124-154 | the saved panes that live sessions are given are exactly those the inputs ask for, in order |
| `PaneUse.PaneUsedOnceExactly` | src/workspace-tab-terminal-restore.ts:124-154 | no saved pane receives two live sessions exactly when no two SSH, local or plugin sessions name one pane and none names a pane that a telnet session takes |
| `PaneUse.TwoShellsShareAPane` | src/workspace-tab-terminal-restore.ts:124-129 | two sessions attached to one saved pane are both given it |
| `RestorePlanner.NewTabHoldsOne` | src/workspace-tab-terminal-restore.ts:105-116 | each new tab holds exactly the session it was made for |
| `RestorePlanner.LivePaneIsShown` | src/workspace-tab-terminal-restore.ts:104-160 | every live session of the plan is in a pane of its tab: one the saved tab has, or a leaf of the layout made for it |
| `RestorePlanner.WorkspaceRestorePlanner.AttachSessions` | src/workspace-tab-terminal-restore.ts:124-130 | with the source's collections, the same result as the specification: the loop over SSH and local sessions |
| `RestorePlanner.WorkspaceRestorePlanner.MatchTelnetSessions` | src/workspace-tab-terminal-restore.ts:131-143 | with the source's collections, the same result as the specification: the loop over telnet sessions |
| `RestorePlanner.WorkspaceRestorePlanner.CollectPluginSessions` | src/workspace-tab-terminal-restore.ts:144-154 | with the source's collections, the same result as the specification: the loop over plugin sessions |
| `RestorePlanner.WorkspaceRestorePlanner.Seeds` | src/workspace-tab-terminal-restore.ts:104-160 | with the source's collections, the same result as the specification: the tabs built from the filled collections, with the saved tabs or the layouts made |
| `SyntheticLayout.SideBySide` | src/workspace-tab-terminal-restore.ts:105-110 | the fold builds the layout whose leaves are exactly the panes in order |
| `SyntheticLayout.SharesAreEqual` | src/workspace-tab-terminal-restore.ts:107-110 | its nested ratios give every leaf exactly the same share of the width |
| `SyntheticLayout.RatioIsProper` | src/workspace-tab-terminal-restore.ts:108 | every ratio lies strictly between zero and one |
| `LayoutMerge.MergedMeans` | src/terminal-workspace-handoff.ts:27-39 | as a map the merged layout has exactly the local tab for an owned id, present or not, and exactly the saved tab for any other |
| `LayoutMerge.ForeignTabsAreKept` | src/terminal-workspace-handoff.ts:33-38 | tabs of other windows stay unchanged and in order |
| `LayoutMerge.MergeIsIdempotent` | src/terminal-workspace-handoff.ts:27-50 | merging the same local layout again changes nothing, order and active tab included |
| `LayoutMerge.MergesCommute` | src/terminal-workspace-handoff.ts:27-50 | for disjoint ownership two merges commute as maps |
| `LayoutMerge.MergedIsDistinct` | src/terminal-workspace-handoff.ts:33-39 | distinct saved ids stay distinct |
| `LayoutMerge.ActiveTabIsMerged` | src/terminal-workspace-handoff.ts:40-47 | the active id is missing exactly from an empty result, is one of the ids, and is kept if it can be |
| `LayoutMerge.MergeOwnedTabs` | src/terminal-workspace-handoff.ts:32-39 | the pass that deletes from the map and appends computes the specified tabs |
| `FileRecovery.NextKeepsLedger` | src/workspace-file-handoff.ts:81-118 | every step of import, discard and activate, overlapping and failing anywhere, keeps the ledger |
| `FileRecovery.EveryCapabilityIsInOnePlace` | src/workspace-file-handoff.ts:81-118 | in every run each registered capability is in exactly one of: an import in progress, held for a staged tab, released once, handed over, lost |
| `FileRecovery.LosesExactly` | src/workspace-file-handoff.ts:97-118 | a step loses capabilities exactly when it drops those of an id that was not admitted since: an import over a staged id, or the end of an activation after discard and import; what is lost stays lost |
| `FileRecovery.RunLosesExactly` | src/workspace-file-handoff.ts:81-118 | a run loses a capability exactly when one of its steps drops some that were not admitted |
| `FileRecovery.NothingIsLost` | src/workspace-file-handoff.ts:81-118 | when only open tabs are closed and a tab is left alone while its activation waits, nothing is ever lost, also when the store admits a staged tab itself |
| `FileRecovery.ForgottenStageLoses` | src/workspace-file-handoff.ts:90-104 | a run from the start: the store forgets a staged tab, and importing it again loses its capability |
| `FileRecovery.LateActivationLoses` | src/workspace-file-handoff.ts:97-118 | a run from the start with import, discard and activate alone that loses a capability: the first activation ends after discard and a second import |
| `FileRecovery.StagedWithAll` | src/workspace-file-handoff.ts:94-103 | a tab is staged with exactly one capability per directory |
| `FileRestore.OneWantPerDirectory` | src/workspace-file-handoff.ts:48-70 | the directories to register are one per trail item plus one per open local pane |
| `FileRestore.RestoreLocalCapabilities` | src/workspace-file-handoff.ts:27-78 | the nested loops succeed exactly when every directory is usable, registered and unmoved, with one capability per directory in order; on failure exactly the capabilities obtained so far are released, in order |
| `FileRestore.ImportReachesRestore` | src/workspace-file-handoff.ts:81-103 | in a run, an import whose registrations get the same answers reaches what those loops compute: all capabilities in order, or a failed import that released exactly those obtained |
| `FileRestore.FileTabRecovery.FinishImporting` | src/workspace-file-handoff.ts:95-103 | the method on the recovery's collections does exactly the specified step: staging or releasing |
| `FileRestore.FileTabRecovery.DiscardTab` | src/workspace-file-handoff.ts:105-111 | the method on the recovery's collections does exactly the specified step: discarding |
| `FileRestore.FileTabRecovery.Activate` | src/workspace-file-handoff.ts:112-115 | the method on the recovery's collections does exactly the specified step: admission |
| `FileRestore.FileTabRecovery.FinishActivating` | src/workspace-file-handoff.ts:115-118 | the method on the recovery's collections does exactly the specified step: the end of an activation |
| `FileRestore.FileTabRecovery.AdmitImported` | src/single-document-workspace.ts:144-153 | the store admits a staged tab without an activation, unless it conflicts |
| `FileRestore.FileTabRecovery.RunRecovery` | src/workspace-file-handoff.ts:81-118 | any sequence of overlapping steps keeps the ledger, and loses a capability exactly when one of its steps does |
| `HintWorker.HintsKeepTheirDistance` | src-tauri/src/connectivity_hints.rs:28-36 | in every run each hint starts at least two seconds after the one before ended |
| `HintWorker.NoWakeUpIsLost` | src-tauri/src/connectivity_hints.rs:25-56 | in every run each notification is followed by a hint that starts no earlier, unless the worker still owes it; an idle or finished worker owes nothing |
| `HintWorker.OwedHintStarts` | src-tauri/src/connectivity_hints.rs:29-36 | whatever happens meanwhile, a worker that owes a hint starts one after at most seven steps of its own and one more for each notification |
| `HintWorker.HintsAreEarned` | src-tauri/src/connectivity_hints.rs:33-34 | there are never more hints than notifications |
| `HintWorker.ConnectivityHints.NotifyWorker` | src-tauri/src/connectivity_hints.rs:52-56 | the method on channel and worker does exactly the specified step: a notification, dropped if the channel is full |
| `HintWorker.ConnectivityHints.ReceiveMessage` | src-tauri/src/connectivity_hints.rs:29-32 | the method on channel and worker does exactly the specified step: taking a message and choosing the wait |
| `HintWorker.ConnectivityHints.Drain` | src-tauri/src/connectivity_hints.rs:33 | the method on channel and worker does exactly the specified step: the draining loop |
| `HintWorker.ConnectivityHints.HandleEvents` | src-tauri/src/connectivity_hints.rs:25-56 | any sequence of events on channel and worker keeps the distance between hints, answers or owes every notification, and earns every hint |
| `OutputGeometry.MarkersIncrease` | src/terminal-output-geometry.ts:20-33 | after any non-decreasing records the markers are strictly increasing |
| `OutputGeometry.LookupAgreesWithFullLog` | src/terminal-output-geometry.ts:7-33 | a lookup in the markers finds the size of the last full record before the output |
| `OutputGeometry.GeometryForOutput` | src/terminal-output-geometry.ts:7-18 | the scanning loop is that lookup |
| `OutputGeometry.GeometryMarkers.RecordOutputGeometry` | src/terminal-output-geometry.ts:20-33 | recording overwrites or appends in place as specified |
| `GeometryHandoff.SameTextExactly` | src/terminal-output-geometry.ts:26-28 | two output numbers are the same text exactly when they are the same number |
| `GeometryHandoff.RecordingReads` | src/terminal-output-geometry.ts:20-33 | so recording with texts is recording with numbers |
| `GeometryHandoff.LongTextIsOutOfRange` | src/terminal-workspace-handoff.ts:67-73 | the length check refuses no number in range |
| `GeometryHandoff.ParseOutputGeometry` | src/terminal-workspace-handoff.ts:61-78 | the check accepts exactly the numerals that read as bounded, strictly increasing markers from zero with proper sizes, and returns them unchanged |
| `OutputGeometry.RecordedIsAcceptedExactly` | src/terminal-workspace-handoff.ts:61-78 | what was recorded from output zero in proper sizes is accepted when handed over exactly when it has at most 4096 markers |
| `OutputGeometry.ManyChangesAreRefused` | src/terminal-workspace-handoff.ts:61-78 | records of any greater number of alternating sizes, which recording takes, are refused |

## Left out

- IPC, event listeners, timers and real clocks: replies, failures, departures and the passage of time are events or parameters.
- Concurrency inside a step: JavaScript runs one callback at a time, and the Rust state is behind locks, so steps are atomic.
- User interface: Vue components, routing, visibility of native views and window chrome.
- russh, TCP and the tokio scheduler: a transport is what it is asked for and how that ends.
- Persistence, the Vault and key storage behind the resolvers: their answers are inputs. Quick connections without a saved Host are not modelled.
- Texts in revision tokens are sequences of UTF-8 bytes, one character per byte, because the length prefix counts bytes.
- ForwardSession.LifecycleIsObeyed: byte counters are unbounded there; `Relay` models the 64-bit wrap-around of the shared counters.
- ForwardSession.ChildrenAreCounted: which address a child connects to is not modelled, only its arrival, end and failure.
- Socks5.AcceptsExactly: IP addresses are compared as octets; how they are printed is not modelled. A handshake deadline is the same as the end of the input.
- ExitGate.ForwardSessionService.ShutdownAll: each stop's outcome is an input, and nothing else runs between two sessions; `ExitGate.UninterruptedIsShutDown` joins it with the interleaved model, whose steps `ExitGate.NextKeepsInv` covers.
- TabShell.RunKeepsInv: an activation names a tab that the Header lists; `TabShell.ActivateSameExactly`, `TabShell.UnlistedSwitchExactly` and `TabShell.UnlistedPageExactly` say when activating and leaving a view that is not listed keep the claim. In `createManagedWorkspaceTab` the branch for a created view whose bootstrap did not start (src/workspace-tab-view-shell.ts:622) is not part of this model: both flags are always set from one value (lines 589-590).
- TabShell.InputIsHandedOver: the orphan recovery and the close dialogue (lines 183-221 and 469-533) are not operations of the run; departures they cause are.
- PluginBridge.EveryCallIsInOnePlace: calls are tokens. What `parseCall` admits, the operations' contents and environment messages are not modelled, and a reply is taken to answer the call it was requested for.
- Shortcuts.AcceptedExactly: values that are neither texts nor null are not modelled. The command table is a parameter, and the default bindings are not checked.
- RestorePlan.NoSessionTwice: the inputs are the active sessions with their views; fetching and filtering them by state is not modelled. It assumes that the core lists no session twice and that new ids are new.
- RestorePlanner.WorkspaceRestorePlanner.Seeds: labels, the ids of splits and the contents of saved panes beyond their endpoint are not part of the model.
- LayoutMerge.MergedMeans: a tab is its id and one text for the rest.
- FileRecovery.EveryCapabilityIsInOnePlace: a release counts when it is requested; the core may refuse it. SFTP session checks and store conflicts are inputs.
- HintWorker.NoWakeUpIsLost: a notification reads the active flag and sends in one step.
- OutputGeometry.LookupAgreesWithFullLog: output numbers are naturals there; `GeometryHandoff` joins them with the decimal texts of the program.
- GeometryHandoff.ParseOutputGeometry: a received marker has exactly its three fields, with a text and two whole numbers; the test for other JSON shapes is not modelled.
- FocusBroker.PendingAtRest: reading the epoch is an event; a request that fails after a fresh epoch may leave the model without one.
- Other parts of the repository (file transfer, remote desktop, updates, packaging, most stores) would add many easy members and are not modelled.
