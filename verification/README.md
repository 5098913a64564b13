# Verified model of SshAutomator's remote protocol and its local cores

SshAutomator runs commands on machines over SSH and through outbound agents. This project models the
parts of it whose behaviour depends on state, interleavings and encodings, and proves what those parts
promise, in Dafny.

JavaScript runs to completion, so each stretch of code between two awaits is one step with one clock
reading. A core that changes state is written twice: as functions from old state to new state, about
which the theorems are proved for every run (every finite sequence of steps, in any order and with any
arguments), and as a class whose methods update its fields in place and are proved to do exactly what
those functions say. Pure code is written as functions.

| file | what it models |
|---|---|
| `RemoteTypes.dfy` | capabilities, scopes, tools, policies, envelopes, signatures |
| `ExpiringLog.dfy` | insertion-ordered maps with expiry and a cap: nonce windows, accepted actions |
| `ConnectionLifecycle.dfy` | managed connections, claims, reserved upgrades |
| `ControlPlane.dfy`, `RemoteControlPlane.dfy` | the control plane's tables and handlers, as functions and as an object |
| `AgentRunner.dfy` | the agent process |
| `RemoteSystem.dfy` | one control plane, its agents and the network, as one transition system |
| `RemoteEffects.dfy` | what each event does to that system and exactly when, spelled out on rows, scopes and connections |
| `RemotePresence.dfy`, `RemoteActions.dfy`, `RemotePolicies.dfy`, `RemoteRequests.dfy`, `RemoteHellos.dfy`, `RemoteResults.dfy` | theorems about its runs |
| `JsonText.dfy`, `CanonicalJson.dfy`, `RemoteEnvelopes.dfy` | the text that is signed, a parser for it, and the envelopes as JSON |
| `SessionAdmission.dfy` | SSH session admission and eviction |
| `RateLimiter.dfy` | the sliding-window limiter beside the full history |
| `OAuth.dfy` | the authorization code flow |
| `BoundedOutput.dfy`, `TailScan.dfy` | bounded capture of output, reading the last lines of a file |
| `PathPolicy.dfy` | path normalization and prefix policy |
| `ShellQuoting.dfy` | command lines, read back by POSIX token recognition and PowerShell literals |
| `HttpLifecycle.dfy` | starting and closing the HTTP server |

The network is the set of all envelopes ever signed. Each can be delivered any number of times, in any
order, on any connection. A signature is the pair of a key and an envelope, and only the holder of a key
adds pairs with it. Identifiers, nonces and hashes are compared for equality only.

The WebSocket library is assumed to accept each upgraded socket at most once, at any time, even after
the socket has closed; and a server closed between its bind and its listening event is assumed not to
deliver the event.

Where the code does not do what one might expect, the code is modelled as it is. A lemma gives an input,
and the lemma after the slash says exactly when it happens (one lemma does both where only one is named):

- an accept whose socket is no longer reserved can push managed and reserved connections together past
  the limit, though never the managed ones alone (`LateAcceptExceedsTheLimit` / `AcceptStaysWithin`);
- closing the control plane leaves the rows of live agents `online` (`ShutdownStrandsOnlineRows`);
- a hello from the agent's future can be accepted again one nonce lifetime later
  (`ReplayAtTheBoundary` / `HelloAcceptedExactly`);
- an array holding one `undefined` prints like the empty array (`UndefinedItemCollapses` /
  `CanonicalIsInjective`);
- a key checked under a short window forgets what a long one needs (`MixedWindowsForget` / `LogExactly`,
  `MixedWindowsExactly`), and a limit below one names a reset time that never comes
  (`ZeroLimitNeverAdmits` / `DenialTellsWhen`);
- a code is still good at the instant it expires, until the pruner runs (`PruningAtTheDeadline`);
- an empty chunk after an exactly full buffer flags a loss that did not happen (`EmptyChunkFlagsALoss` /
  `ChunkingIndependence`);
- with a directory, `sudo` applies to the `cd` and not to the command (`SudoCovers`);
- PowerShell takes typographic quotes for quotes, and they are not doubled
  (`TypographicQuoteIsNotDoubled` / `PowerShellRoundTrip`);
- a start whose listening event was lost to a close never settles (`StartCanHang` /
  `SettlesUnlessStranded`).

An action can be accepted a second time at its very deadline, after a restart of the agent, or after
10,000 others (`AcceptedAgainAtTheDeadline`, `RestartForgetsAcceptedActions`, `BurstAcceptsTwice`). Within one
run of the agent nothing else allows it (`ActionAcceptedAtMostOnce`), and 10,000 later acceptances that are
all before their deadlines always do (`AcceptedAgainAfterTenThousand`).

## Model

| member | source | states |
|---|---|---|
| ExpiringLog.InsertRemembers | src/remote/http-util.ts:62-72 | pruning, inserting and trimming a map leaves exactly what the full insertion history still requires: every unexpired entry not followed by `cap` later ones, in order |
| ExpiringLog.RememberedIsHeld | src/remote/http-util.ts:45-60 | an unexpired entry followed by fewer than `cap` insertions is still found |
| ExpiringLog.CapForgets | src/remote/http-util.ts:62-72 | once `cap` later insertions are all unexpired, an earlier key they do not repeat is gone |
| NonceWindows.NonceWindow.Prune | src/remote/http-util.ts:45-51 | the in-place prune keeps exactly the entries expiring strictly later |
| NonceWindows.NonceWindow.HasSeen | src/remote/http-util.ts:53-60 | prunes, then answers whether an unexpired entry carries the nonce |
| NonceWindows.NonceWindow.Remember | src/remote/http-util.ts:62-72 | the window after the call; a nonce that is present keeps its place and gets the new expiry |
| ConnectionLifecycle.ClaimedInv | src/remote/agent-connection-lifecycle.ts:112-148 | claiming keeps: bound to an agent exactly when in its claim set, sets non-empty and within the per-agent limit |
| ConnectionLifecycle.ClosedInv | src/remote/agent-connection-lifecycle.ts:288-318 | closing a connection keeps the invariant |
| ConnectionLifecycle.ClosedReleases | src/remote/agent-connection-lifecycle.ts:288-318 | closing takes away exactly that connection and its claim |
| ConnectionLifecycle.ClaimsAreDisjoint | src/remote/agent-connection-lifecycle.ts:112-148 | claim sets of two agents share no connection and hold managed ones only |
| ConnectionLifecycle.AcceptedLoad | src/remote/agent-connection-lifecycle.ts:57-110 | turning a reservation into a connection does not raise managed plus reserved; an accept without a reservation raises it by at most one |
| ConnectionLifecycle.AcceptStaysWithin | src/remote/agent-connection-lifecycle.ts:72-93 | from within the limit, an accept stays within it if and only if its socket is still reserved, there was room for one more, or the connection is turned away |
| RemotePresence.LateAcceptExceedsTheLimit | src/remote/agent-connection-lifecycle.ts:68-93 | a run of four events at the end of which managed plus reserved exceed the limit |
| ConnectionLifecycle.AgentConnectionLifecycle.HandleUpgrade | src/remote/agent-connection-lifecycle.ts:57-81 | reserves a socket exactly when below the limit and not shutting down |
| ConnectionLifecycle.AgentConnectionLifecycle.Attach | src/remote/agent-connection-lifecycle.ts:83-110 | admits a connection exactly when managed ones are below the limit, keeping the invariant |
| ConnectionLifecycle.AgentConnectionLifecycle.Claim | src/remote/agent-connection-lifecycle.ts:112-148 | binds exactly when the connection is unbound or already this agent's and the agent has room |
| ConnectionLifecycle.AgentConnectionLifecycle.HandleClose | src/remote/agent-connection-lifecycle.ts:288-318 | drops the connection and its claim; reports the agent only if it was authenticated |
| ConnectionLifecycle.AgentConnectionLifecycle.ReleaseAgentClaim | src/remote/agent-connection-lifecycle.ts:352-361 | removes one connection from its agent's set, and the set when it empties |
| ConnectionLifecycle.AgentConnectionLifecycle.Close | src/remote/agent-connection-lifecycle.ts:206-242 | empties every table and stays shut |
| ControlPlane.ResolvesExactly | src/remote/agent-handler.ts:294-335 | a result resolves an action if and only if the action is pending for that agent, the signature verifies, it came on the agent's live connection and its nonce is unseen |
| ControlPlane.ResolvedNonceIsSeen | src/remote/agent-handler.ts:331-331 | a nonce that resolved an action enters the live window with a full lifetime |
| RemoteResults.ResultNoncesApart | src/remote/agent-handler.ts:317-335 | in every run, on one live connection two results with one nonce, or a result with the hello's nonce, are taken only 300000 ms apart or with at least 4096 nonces between them |
| RemoteResults.ResolvedOnLiveConnection | src/remote/agent-handler.ts:294-335 | in every run a resolved action's result arrived on the connection that was live, at that moment, for the agent that signed it, and an action that timed out did so by its own timer |
| RemoteControlPlane.Server.HandleAgentHello | src/remote/agent-handler.ts:137-233 | all rejections in order, pruning, replacement and the online row, in place; presence is kept |
| RemoteControlPlane.Server.HandleActionResult | src/remote/agent-handler.ts:294-348 | each rejection settles and removes the action; success records the nonce first |
| RemoteControlPlane.Server.CleanupEphemeralState | src/remote/agent-handler.ts:387-397 | both loops prune every window and drop empty hello windows |
| RemoteControlPlane.Server.HandleLiveConnectionClosed | src/remote/agent-handler.ts:359-381 | only the live connection's close takes the agent offline, and never out of `revoked` |
| RemoteControlPlane.Server.CallRemoteTool | src/remote/control-plane.ts:568-626 | dispatches exactly when scope, ownership, stored policy and liveness allow |
| RemoteControlPlane.Server.CreateEnrollmentToken | src/remote/control-plane.ts:628-677 | a pending agent and its token appear together, exactly when the scope, the alias and fresh names allow |
| RemoteControlPlane.Server.ActionTimedOut | src/remote/control-plane.ts:850-861 | the timer settles an action exactly when it is still pending |
| RemoteControlPlane.Server.FinishAction | src/remote/control-plane.ts:862-903 | the row gets the status the outcome demands, if it still exists |
| RemoteControlPlane.Server.RemoveRevokedAgent | src/remote/store.ts:519-541 | deletes a revoked agent's row, tokens and actions together, or nothing |
| RemoteControlPlane.Server.HandleAgentEnroll | src/remote/control-plane.ts:486-538 | enrolls exactly with an unused, unexpired token of an agent that is not revoked, and uses the token up |
| RemoteControlPlane.Server.UpdatePolicy | src/remote/control-plane.ts:709-761 | the row's version rises by one with the new policy |
| RemoteControlPlane.Server.RevokeAgent | src/remote/control-plane.ts:763-779 | the row is revoked and the live entry removed together |
| RemoteControlPlane.Server.Close | src/remote/control-plane.ts:114-129 | no pending action, live entry or connection is left |
| RemotePresence.ConnectionsInEveryRun | src/remote/agent-connection-lifecycle.ts:57-161 | in every run: binding is claim-set membership, claim sets are disjoint, bounded and managed, the global limit holds up to late accepts, and before shutdown live entries are managed, authenticated and bound to their own agent |
| RemotePresence.OnlineExactlyWhenLive | src/remote/agent-handler.ts:214-221 | in every run, before shutdown, a stored agent is `online` exactly when it has a live connection |
| RemotePresence.TokenEnrollsAtMostOnce | src/remote/store.ts:613-622 | in every run each token enrolls at most once |
| RemotePresence.EnrollKnocksNobodyOffline | src/remote/control-plane.ts:486-538 | enrolling changes no live connection and no online row |
| RemotePresence.RevokedIsForever | src/remote/store.ts:519-541 | a revoked agent is revoked or absent for the rest of every run |
| RemotePresence.ShutdownStrandsOnlineRows | src/remote/control-plane.ts:114-129 | after shutdown exactly the agents that were live are still `online` without a connection |
| RemoteActions.SettledAtMostOnce | src/remote/control-plane.ts:781-903 | in every run the pending table is exactly the dispatched actions not yet settled, and none settles twice |
| RemoteActions.ResolvedByItsAgent | src/remote/agent-handler.ts:294-335 | in every run a resolved action carries its own result, signed with the enrolled key of the agent it was sent to |
| RemoteActions.RowLeavesSentOnce | src/remote/control-plane.ts:862-903 | in every run a row leaves `sent` at most once, after its promise settled: completed if and only if the outcome is a result that says ok, timed out if and only if it is the timer's rejection, error in every other case; user, agent and tool stay those of the dispatch |
| RemoteActions.ShutdownSettlesAll | src/remote/control-plane.ts:114-129 | shutdown settles what is pending once and nothing else again |
| RemotePolicies.PolicyAgreement | src/remote/agent-cli.ts:216-238 | in every run an agent enforces exactly what was published for it under that version, never above the stored version, and accepted versions strictly increase |
| RemotePolicies.VersionsNeverRegress | src/remote/policy-update-guard.ts:14-46 | along every run an agent's version never falls and its accepted versions are only added to |
| RemotePolicies.AuthorityTrace | src/remote/agent-executor.ts:347-366 | in every run each tool an agent ran goes back to one dispatch for it by the user who owned the agent at that moment, granted by that user's scopes, by the policy stored at dispatch and by the agent's own policy, at most one version older |
| RemoteRequests.PublishedAsAsked | src/remote/control-plane.ts:709-761 | in every run version v of an agent's published policy has exactly the capabilities that the v-th request that took effect asked for, the first by the enrollment token, the others by administering owners |
| RemoteRequests.EnforcedAsAsked | src/remote/agent-cli.ts:216-238 | in every run each agent enforces exactly what the request its version counts asked for, and each row stores what the last one asked for |
| RemoteRequests.PublishedStep | src/remote/control-plane.ts:717-733 | no other event changes what is published for any agent |
| RemoteEffects.OneScopePerTool | src/remote/types.ts:35-47 | through the scope table and the tool table each tool needs exactly one scope, named for each |
| RemoteEffects.CallToolEffect | src/remote/control-plane.ts:568-626 | a call dispatches if and only if the user has the tool's scope, owns the agent, its stored policy allows the tool, it is not revoked and is live; row, pending entry and signed request say who, where, what and until when, and otherwise nothing changes |
| RemoteEffects.DispatchedByOwner | src/remote/control-plane.ts:905-921 | from any state, an event that adds a dispatch is a call by the user named in the agent's row, with the scope and the stored policy for the tool |
| RemoteEffects.OthersChangeNothing | src/remote/control-plane.ts:905-921 | a call, an update, a revocation or a removal by a user who does not own the agent changes nothing |
| RemoteEffects.UpdatePolicyEffect | src/remote/control-plane.ts:709-761 | an update takes effect if and only if an administering owner asks; the row then has the requested capabilities under the next version, and an update saying so is signed if the agent is live |
| RemoteEffects.RevokeEffect | src/remote/control-plane.ts:763-779 | a revocation takes effect if and only if an administering owner asks; the row is revoked and the agent not live |
| RemoteEffects.RevocationIsFinal | src/remote/control-plane.ts:763-779 | after it the agent is revoked or absent in every continuation of every run |
| RemoteEffects.RemoveEffect | src/remote/store.ts:519-541 | a removal takes effect if and only if the row is the user's own and revoked, and takes exactly its tokens and actions along |
| RemoteEffects.CreateTokenEffect | src/remote/control-plane.ts:628-677 | a token is made if and only if the scope, the alias and fresh names allow; the agent is pending and keyless under version 1 of what was asked for |
| RemoteEffects.EnrollEffect | src/remote/control-plane.ts:486-538 | a token enrolls if and only if it is stored, unused and not past its expiry, and its agent is not revoked |
| RemoteEffects.HelloEffect | src/remote/agent-handler.ts:137-233 | what a hello changes and exactly when it is accepted, with the limits of 300000 ms on both sides |
| RemoteEffects.ResultEffect | src/remote/agent-handler.ts:294-335 | how a result settles the action it names, in the order of the checks |
| RemoteEffects.StrangersAreIgnored | src/remote/agent-handler.ts:87-126 | a connection that is not managed, or says anything but hello before it is authenticated, changes nothing |
| RemoteEffects.MayClaimExactly | src/remote/agent-connection-lifecycle.ts:112-148 | when a connection may speak for an agent |
| RemoteEffects.CloseEffect | src/remote/agent-handler.ts:359-381 | a close takes an agent offline if and only if it is the close of its live, authenticated connection |
| RemoteEffects.MaintenanceEffect | src/remote/store.ts:105-109 | the minute timer drops exactly the tokens whose expiry was reached and the nonces whose lifetime ended |
| RemoteEffects.AgentReceiveEffect | src/remote/agent-cli.ts:339-362 | an agent runs a tool, or changes its policy, if and only if the message meets the conditions spelled out, and changes nothing else |
| RemoteEffects.StartEffect | src/remote/agent-cli.ts:264-272 | installing starts under the policy the enrollment answered with; a restart keeps the policy and forgets what was seen |
| RemoteEffects.DispatchedActionRuns | src/remote/agent-executor.ts:347-366 | a request dispatched to an agent that enforces the stored policy runs when first delivered in time |
| RemoteEffects.PublishedUpdateEnforced | src/remote/agent-cli.ts:216-238 | an update for a live agent, delivered within five minutes, puts exactly the requested capabilities in force |
| RemoteHellos.HelloAcceptedExactly | src/remote/agent-handler.ts:137-233 | a hello brings its agent online if and only if it is enrolled, claimable, signed, fresh, not live there already and has no unexpired record |
| RemoteHellos.HelloReplayBound | src/remote/agent-handler.ts:235-275 | in every run a hello accepted at t is accepted again only in [t + 300000, timestamp + 300000]; never twice when its timestamp was before t |
| RemoteHellos.ReplayAtTheBoundary | src/remote/agent-handler.ts:256-275 | a hello that was not in the past when accepted is accepted again exactly one lifetime later |
| AgentRunner.AcceptedRaisesVersion | src/remote/policy-update-guard.ts:14-38 | an accepted update always raises the version, whatever the nonce window forgot |
| AgentRunner.UpdateAcceptedExactly | src/remote/policy-update-guard.ts:14-46 | an update is accepted if and only if its nonce is unseen, it is at most 300000 ms old and 30000 ms ahead, and it carries its policy's version, which is newer |
| AgentRunner.ActionAcceptedAtMostOnce | src/remote/agent-cli.ts:240-293 | over any deliveries, a second acceptance of an action comes at or after its deadline or after 10,000 other acceptances |
| AgentRunner.AcceptedIsHeld | src/remote/agent-cli.ts:274-293 | until then the action is in the table |
| AgentRunner.AcceptedAgainAfterTenThousand | src/remote/agent-cli.ts:281-293 | once 10,000 later acceptances of other actions are all before their deadlines, the action is accepted again, its own deadline still ahead |
| AgentRunner.BurstAcceptsTwice | src/remote/agent-cli.ts:281-293 | such a run, from a fresh process |
| AgentRunner.AcceptedAgainAtTheDeadline | src/remote/agent-cli.ts:250-279 | at the deadline itself a second acceptance is possible |
| AgentRunner.RestartForgetsAcceptedActions | src/remote/agent-cli.ts:264-272 | a restarted agent accepts an action it had accepted, until the deadline |
| AgentRunner.Agent.ApplyPolicyUpdate | src/remote/agent-cli.ts:216-238 | validation, the new policy and the nonce window, in place |
| AgentRunner.Agent.AcceptAction | src/remote/agent-cli.ts:240-262 | duplicate, expired and version checks as one condition |
| AgentRunner.Agent.RememberAction | src/remote/agent-cli.ts:274-293 | prune, duplicate test, insertion and eviction loop |
| AgentRunner.Agent.OnMessage | src/remote/agent-cli.ts:339-362 | recipient, signature, update or action, in that order |
| JsonText.StringRoundTrip | src/remote/crypto.ts:101-104 | reading a printed string gives it back, with escapes, surrogate pairs and lone surrogates |
| JsonText.NumberRoundTrip | src/remote/crypto.ts:101-104 | reading a printed integer gives it back |
| CanonicalJson.EntriesSorted | src/remote/crypto.ts:108-114 | entries are printed in strictly increasing order of their keys' UTF-16 code units, as in section 3.2.3 of RFC 8785 |
| CanonicalJson.ReadingInvertsPrinting | src/remote/crypto.ts:101-119 | a parser reads every canonical text back to the value's normal form, with nothing left over |
| CanonicalJson.TextDeterminesNormal | src/remote/crypto.ts:101-119 | two values print alike exactly when their normal forms are equal |
| CanonicalJson.SameIsNormal | src/remote/crypto.ts:108-114 | normal forms are equal exactly when the values agree up to key order and undefined members |
| CanonicalJson.CanonicalIsInjective | src/remote/crypto.ts:101-119 | two values print alike exactly when they agree up to key order and undefined members |
| CanonicalJson.UndefinedItemCollapses | src/remote/crypto.ts:105-107 | the one collapse among arrays of `undefined` |
| CanonicalJson.SignatureFixesFields | src/remote/crypto.ts:121-146 | a signature verifies for two envelopes exactly when they agree on every field but `signature` |
| CanonicalJson.SignedEnvelopeVerifies | src/remote/crypto.ts:121-146 | an envelope signed and then given its signature verifies |
| RemoteEnvelopes.TextFixesEnvelope | src/remote/types.ts:229-280 | two envelopes, of whatever kinds, have the same canonical text if and only if they are the same envelope |
| SessionAdmission.CapacityInEveryRun | src/session.ts:572-596 | in every interleaving open sessions plus pending connections stay within the limit, and pending counts exactly the calls that connect |
| SessionAdmission.OneCallInside | src/session.ts:572-596 | while a call evicts, no other call is inside the lock or may enter |
| SessionAdmission.ReservationReturnedOnce | src/session.ts:214-315 | every reservation is returned exactly once, on success and on failure |
| SessionAdmission.EvictionPicksTheOldest | src/session.ts:580-611 | an eviction starts only with nothing pending and a full table, on the least recently used idle session that is not closing |
| SessionAdmission.EvictionAdmits | src/session.ts:581-592 | a call that evicted always gets the slot |
| SessionAdmission.FirstComeFirstServed | src/session.ts:573-578 | calls leave the lock in the order they came |
| SessionAdmission.SomebodyCanMove | src/session.ts:573-596 | while a call waits, some call can move or the close it waits for is under way |
| SessionAdmission.BusyIsSpared | src/session.ts:380-396 | only an explicit close starts closing a session with operations in flight |
| SessionAdmission.ClosingExactly | src/session.ts:344-396 | in every run an open session starts closing if and only if somebody closes it, it is fetched idle at or after the end of its lifetime, a cleanup finds it idle past that end, or an entering call evicts it; and stops only when the close finishes |
| SessionAdmission.RunLifetimes | src/session.ts:185-277 | in every run a session's lifetime counts from the moment its call began |
| SessionAdmission.EnterEffect | src/session.ts:578-596 | what an entering call decides, in terms of the counts and the idle sessions |
| SessionAdmission.UseSpares | src/session.ts:394-395 | after a use, eviction takes the session only if no other evictable one was last used earlier |
| SessionAdmission.OperationsBalance | src/session.ts:641-661 | ending an operation undoes beginning it |
| SessionAdmission.OldestIsLeastRecentlyUsed | src/session.ts:599-611 | the scan finds a victim exactly when one is evictable, and then the least recently used, the first opened on a tie |
| SessionAdmission.SessionManager.FindOldest | src/session.ts:599-611 | the scan loop computes that victim |
| SessionAdmission.SessionManager.EnterAdmission | src/session.ts:578-596 | admits, refuses or starts an eviction, and the fields afterwards |
| SessionAdmission.SessionManager.ResumeAdmission | src/session.ts:589-596 | the second capacity test |
| SessionAdmission.SessionManager.GetSession | src/session.ts:380-396 | expired and idle starts a close, expired and busy is kept, otherwise the use is recorded |
| SessionAdmission.SessionManager.BeginClose | src/session.ts:344-360 | starts exactly when the session is there and not closing already |
| SessionAdmission.SessionManager.CleanupExpired | src/session.ts:615-637 | both passes close exactly the idle sessions past their expiry |
| SessionAdmission.SessionManager.EndOperation | src/session.ts:650-661 | counts down and forgets a count that reaches zero |
| RateLimiter.VerdictFromFullHistory | src/rate-limiter.ts:51-110 | after any mix of checks, prunings and resets the answer is the one computed from the full unpruned history |
| RateLimiter.UsageFromFullHistory | src/rate-limiter.ts:124-148 | so is the usage, for the key's window or a shorter one |
| RateLimiter.AnswerMeaning | src/rate-limiter.ts:82-110 | with fixed limits the verdict is told by counting: admitted if and only if fewer than the limit lie in the window, what remains, and when the oldest of them leaves |
| RateLimiter.UsageMeaning | src/rate-limiter.ts:124-148 | so is the usage |
| RateLimiter.DestroyedRefuses | src/rate-limiter.ts:178-186 | after `destroy` every check is refused for good |
| RateLimiter.WindowNeverOverfull | src/rate-limiter.ts:51-110 | every half-open window of windowMs holds at most maxRequests logged times since the key's last reset |
| RateLimiter.LogExactly | src/rate-limiter.ts:61-80 | with limits and windows chosen per call, what a check works on is the full history inside the window if and only if nothing dropped earlier lies there |
| RateLimiter.NothingForgottenNothingLost | src/rate-limiter.ts:61-100 | and then the answer is that of the full history |
| RateLimiter.MixedWindowsExactly | src/rate-limiter.ts:61-100 | for positive windows, the answer is that of the full history if and only if no logged time lies in (now - windowMs, c], c being the largest cutoff used for the key |
| RateLimiter.ShorterWindowsAreExact | src/rate-limiter.ts:61-100 | a check under a window no longer than any before it is always exact |
| RateLimiter.DenialTellsWhen | src/rate-limiter.ts:82-100 | after a refusal the next check is allowed exactly when `resetIn` has passed, and never with a limit below one |
| RateLimiter.MixedWindowsForget | src/rate-limiter.ts:61-80 | a run in which a short window makes a limit of two per second admit a third request within it |
| RateLimiter.ZeroLimitNeverAdmits | src/rate-limiter.ts:82-100 | a limit below one refuses every check |
| RateLimiter.TrimmedIsActive | src/rate-limiter.ts:74-80 | on a sorted log trimming the front equals filtering |
| RateLimiter.RateLimiter.Check | src/rate-limiter.ts:51-110 | the scan loop, the trimmed log and the answer, in place |
| RateLimiter.RateLimiter.GetUsage | src/rate-limiter.ts:124-148 | the answer, changing nothing |
| RateLimiter.RateLimiter.PruneExpiredLogs | src/rate-limiter.ts:153-173 | visiting the keys in any order filters every log and drops the empty ones with their windows |
| OAuth.SingleUse | src/remote/oauth-handler.ts:449-471 | in every interleaving a transaction yields at most one code and a code at most one token (section 4.1.2 of RFC 6749) |
| OAuth.TokenProvenance | src/remote/oauth-handler.ts:684-727 | client, redirect URI, user and scope of a token come from one approved transaction whose challenge is the hash of the verifier (section 4.6 of RFC 7636), within the code's lifetime, and the client still has the URI |
| OAuth.OneTokenPerTransaction | src/remote/oauth-handler.ts:684-727 | any two tokens whose codes come from one transaction are the same token |
| OAuth.CodeHasItsEvents | src/remote/oauth-handler.ts:322-356 | behind every code of every run stand, in order, a request with its fields, the approval by the browser holding that transaction's cookie, that browser's return, both no later than the expiry the transaction was made with, and the provider's answer |
| OAuth.TokenHasItsEvents | src/remote/oauth-handler.ts:684-727 | behind every token stand those events, then the exchange with a verifier whose hash is the challenge |
| OAuth.RequestedStep | src/remote/oauth-handler.ts:157-229 | a request becomes a transaction if and only if its URI is usable and safe, it is well formed, has an S256 challenge, and a provider is configured |
| OAuth.ApprovedStep | src/remote/oauth-handler.ts:322-356 | a transaction becomes approved if and only if its own browser approves it, open and unexpired, with a provider configured |
| OAuth.CallbacksStep | src/remote/oauth-handler.ts:449-471 | a callback goes on if and only if it has a code and is the same browser's, for an approved, unexpired transaction |
| OAuth.OriginsStep | src/remote/oauth-handler.ts:663-682 | a code is issued if and only if the provider names a user for a waiting callback |
| OAuth.ClientsStep | src/remote/oauth-handler.ts:388-446 | a client comes to have a redirect URI by its registration or by ChatGPT's own safe URI, and in no other way |
| OAuth.TokensStep | src/remote/oauth-handler.ts:684-714 | a code yields a token if and only if the form fits it: its client, its URI, unused, in time, the right verifier, and the user still there |
| OAuth.ExpiryStep | src/remote/oauth-handler.ts:760-769 | cleaning and pruning drop exactly the transactions and the codes whose expiry was reached |
| OAuth.HonestFlow | src/remote/oauth-handler.ts:684-727 | the undisturbed flow in time ends in exactly one token with the requested fields |
| OAuth.PruningAtTheDeadline | src/remote/store.ts:105-109 | pruning takes a good code away only at the instant it expires |
| OAuth.OAuthHandler.Authorize | src/remote/oauth-handler.ts:157-229 | client restoring, validation and the new transaction |
| OAuth.OAuthHandler.Approve | src/remote/oauth-handler.ts:322-356 | approves exactly an open, unexpired transaction of this browser |
| OAuth.OAuthHandler.ConsumeCallback | src/remote/oauth-handler.ts:449-471 | the transaction is gone in every case; it is handed on only if approved and unexpired |
| OAuth.OAuthHandler.MarkUsed | src/remote/store.ts:453-462 | the conditional update changes exactly an unused row |
| OAuth.OAuthHandler.Exchange | src/remote/oauth-handler.ts:684-714 | grants exactly when client, URI, expiry, verifier and user fit, and then uses the code up |
| OAuth.OAuthHandler.CleanupExpired | src/remote/oauth-handler.ts:760-769 | the loop keeps exactly the transactions that expire later |
| BoundedOutput.ChunkingIndependence | src/remote/agent-executor.ts:105-134 | collecting any chunks and finalizing equals truncating the whole output, except exactly when an empty chunk followed a full buffer, or a negative limit met no output at all |
| BoundedOutput.CollectedKeeps | src/remote/agent-executor.ts:105-123 | the chunks kept are the first maxBytes bytes, and when the flag is set |
| BoundedOutput.TruncatedMeaning | src/remote/agent-executor.ts:43-103 | truncated exactly when bytes were lost; then exactly maxBytes bytes, a prefix and the marker |
| BoundedOutput.EmptyChunkFlagsALoss | src/remote/agent-executor.ts:114-118 | the input on which chunking matters |
| BoundedOutput.OutputAccumulator.Append | src/remote/agent-executor.ts:105-123 | the accumulator after one chunk |
| TailScan.ReadHandleRange | src/remote/agent-executor.ts:136-152 | whatever the short reads, exactly the bytes of the range that the file has |
| TailScan.FindTailStart | src/remote/agent-executor.ts:174-203 | for every chunk size and short-read behaviour, the plain backward scan |
| TailScan.TailMeaning | src/remote/agent-executor.ts:174-203 | the rest of the file from there is exactly its last maxLines lines, or the scan stopped at its limit above the start of the file |
| TailScan.ScanTruncatedExactly | src/remote/agent-executor.ts:174-203 | the scan is cut short if and only if the file is longer than the scan may go and the last lines are at least that long |
| TailScan.LinesRejoin | src/remote/agent-executor.ts:174-203 | the lines of a text make up the text |
| TailScan.ReadFileTailBounded | src/remote/agent-executor.ts:205-226 | never longer than the limit; below 8 MiB, truncated if and only if the last lines are longer than the limit; if not truncated, exactly the last lines |
| TailScan.ReadFileBounded | src/remote/agent-executor.ts:154-164 | one byte beyond the limit is read, and the result is the whole file truncated |
| PathPolicy.UnderIsSegmentPrefix | src/policy.ts:199-204 | on normalized paths the string test is the segment-list prefix test |
| PathPolicy.NormalizeMeaning | src/policy.ts:170-179 | a normalized path is absolute and has no empty, `.` or `..` segment; a NUL byte is an error |
| PathPolicy.DotDotCancels | src/policy.ts:170-179 | in any list of pieces a clean segment followed by `..` can be dropped |
| PathPolicy.DotDotAtRoot | src/policy.ts:170-179 | `..` behind pieces that come to nothing can be dropped |
| PathPolicy.DotMeansNothing | src/policy.ts:170-179 | an empty piece or a `.` can be dropped anywhere |
| PathPolicy.LawsDetermineResolve | src/policy.ts:170-179 | those three laws and leaving clean lists alone fix the result: every function that obeys them is this one |
| PathPolicy.UpUndoesDown | src/policy.ts:170-179 | on strings, `p/x/..` followed by any rest normalizes like `p` followed by it |
| PathPolicy.UpAtRoot | src/policy.ts:170-179 | on strings, `/..` in front of any rest changes nothing |
| PathPolicy.HereAndDoubledSlash | src/policy.ts:170-179 | on strings, `/.` and a doubled slash change nothing anywhere |
| PathPolicy.ClimbingOut | src/policy.ts:170-179 | `/home/../etc` normalizes to `/etc` |
| PathPolicy.NormalizeIdempotent | src/policy.ts:170-179 | normalizing twice changes nothing |
| PathPolicy.StripTrailingSeparators | src/policy.ts:141-147 | the loop strips every trailing separator beyond the root, and only separators |
| PathPolicy.BuildEngine | src/policy.ts:221-245 | prefixes are kept normalized; a NUL byte in one is an error |
| PathPolicy.JudgedAgrees | src/policy.ts:536-572 | one path is refused for the first reason that applies, in terms of segments |
| PathPolicy.CheckRemotePaths | src/policy.ts:531-576 | allowed exactly when no path lies under a deny prefix and, for destructive operations without the override, each lies under an allow prefix; otherwise the first offender |
| PathPolicy.ResolveExistingPrefix | src/policy.ts:149-168 | resolves the longest existing ancestor and puts the rest back |
| ShellQuoting.QuoteRoundTrip | src/shell.ts:5-8 | a quoted value is read back by the shell, whatever stands around it |
| ShellQuoting.PosixCommandTokens | src/shell.ts:24-45 | the line is exactly the words shell, `-lc` and script; an invalid variable name is the only refusal |
| ShellQuoting.RefusedExactly | src/shell.ts:14-22 | both platforms refuse exactly the variables whose name is not a letter or `_` followed by letters, digits and `_` |
| ShellQuoting.PosixScriptTokens | src/shell.ts:33-42 | inside the script the directory and each value are one word equal to the original, and the command reads as it does alone |
| ShellQuoting.SudoCovers | src/shell.ts:103-118 | refused on Windows; `sudo` runs the command if no directory is given, and the `cd` if one is |
| ShellQuoting.AssertValidEnvironment | src/shell.ts:14-22 | finds the first invalid name, if any |
| ShellQuoting.PowerShellRoundTrip | src/shell.ts:10-12 | a doubled value is read back exactly when it holds no typographic quote |
| ShellQuoting.PowerShellCommandReadsBack | src/shell.ts:47-64 | the script survives the outer literal exactly when it holds no typographic quote |
| ShellQuoting.PowerShellScriptReadsBack | src/shell.ts:53-61 | every value, the directory and the command are read back from the script |
| ShellQuoting.TypographicQuoteIsNotDoubled | src/shell.ts:10-12 | a value on which doubling fails |
| HttpLifecycle.CleanupAtMostOnce | src/http-server-lifecycle.ts:71-91 | in every run cleanup runs at most once, exactly once when close has settled; listen at most once; no signal handler outlives close |
| HttpLifecycle.ClosedMeansNotListening | src/http-server-lifecycle.ts:55-145 | once close and every start have settled, the server is not listening nor about to |
| HttpLifecycle.OutcomesMean | src/http-server-lifecycle.ts:109-145 | in every run a start was fulfilled only if the server was brought up, and until a close it listens with its signal handlers in place; a start that failed left everything closed and cleaned up; one was refused only after a close |
| HttpLifecycle.FailureIsFinal | src/http-server-lifecycle.ts:120-139 | once a hook or the bind has failed, no waiting start is ever fulfilled |
| HttpLifecycle.NothingElseFails | src/http-server-lifecycle.ts:109-145 | without a close, a failing hook or a failing bind, no start fails or is refused |
| HttpLifecycle.StartThenClose | src/http-server-lifecycle.ts:109-145 | the undisturbed run ends serving, and closing it undoes that |
| HttpLifecycle.CloseAwaitsBoth | src/http-server-lifecycle.ts:71-91 | however a close began, it settles only after cleanup ended and, if the server was listening, after the server closed |
| HttpLifecycle.ClosedStays | src/http-server-lifecycle.ts:120-124 | once a close has begun, `listen` is not called any more |
| HttpLifecycle.NeverListensAgain | src/http-server-lifecycle.ts:55-145 | and it stays so in every continuation |
| HttpLifecycle.StartAfterCloseIsRefused | src/http-server-lifecycle.ts:109-112 | a start at any time after a close call is refused and changes nothing |
| HttpLifecycle.StartCanHang | src/http-server-lifecycle.ts:93-107 | a run that strands a start |
| HttpLifecycle.StrandedForever | src/http-server-lifecycle.ts:93-107 | in every continuation a stranded start stays so and its callers keep waiting |
| HttpLifecycle.SettlesUnlessStranded | src/http-server-lifecycle.ts:55-145 | in every run, a start call that waits can still settle if and only if it is not stranded |
| HttpLifecycle.HttpServerLifecycle.Start | src/http-server-lifecycle.ts:109-119 | refused, already started, joined or begun |
| HttpLifecycle.HttpServerLifecycle.Close | src/http-server-lifecycle.ts:71-91 | the first call closes, drops the handlers and takes the socket down |
| HttpLifecycle.HttpServerLifecycle.ResumeAfterListen | src/http-server-lifecycle.ts:125-131 | after listening, goes on only if nobody closed |

## Left out

- Policy PATCH routes that read the agent row, await the body and write it back (src/remote/control-plane.ts:460-477): the row is read and written in one step here.
- Cryptography, hashing, tokens' JWT format and random identifiers: signatures are ideal, hashes injective, identifiers fresh.
- Timers, heartbeats, pings and closing handshakes of WebSockets: a close event may come at any time.
- A restart of the control plane: runs start with empty tables, or in any state that satisfies the invariants.
- RemoteControlPlane.Server.HandleActionResult: the nonce window of a connection is held as a value in its table entry; the window updated in place is NonceWindows.NonceWindow.
- Policies' profiles, paths and other limits, action arguments, host metadata and audit events of the remote protocol: they decide nothing that is modelled. The capabilities an update or a token asks for are those after the profile was merged in.
- Agent aliases in calls: an agent is named by its identifier; resolving an alias finds only the caller's own agents.
- RateLimiter.MixedWindowsExactly: assumes that the windows used for the key were positive; with a window of zero or less, times logged and dropped in the same millisecond can cancel out in the answer. What the check works on is characterised for all windows by LogExactly.
- RemoteEnvelopes.TextFixesEnvelope: speaks of the fields modelled here; identifiers, nonces and times are numbers, and profiles, arguments, host metadata and outputs are left out.
- PathPolicy.StripTrailingSeparators: takes a separator of one character, as every caller passes.
- PathPolicy.BuildEngine: keeps the remote prefixes; the local ones, which the constructor normalizes too, are not modelled.
- JsonText.NumberRoundTrip: covers integers; JavaScript's printing of other numbers is not modelled.
- Host keys, SFTP, authentication and automatic reconnection of SSH sessions: they only decide whether a connection succeeds.
- Root and explain-mode requests in `openSession`: they end before a slot is reserved.
- SessionAdmission.SessionManager.AddSession: requires a session id that is not in the table, since ids are drawn fresh.
- Registration rate limits and fixture identities of OAuth, and the choice of identity provider.
- TailScan.ReadFileTailBounded: for limits of 8 MiB and more, where a marker may be padded with zeros, only the length and the flag are stated.
- PathPolicy.CheckRemotePaths: prefixes that normalize alike are kept twice instead of once, which no test can see.
- Local path normalization on Windows, and regular-expression rules of the policy and safety modules: they depend on the platform and on a regular-expression engine.
- The timeout wrapper around remote commands (src/shell.ts:80-101), and how Windows splits the outer PowerShell command line.
- ShellQuoting.PosixScriptTokens: says nothing about alias substitution, reserved words and expansions after tokens are recognized; none is left in the generated part.
- The executor's other tools, tunnels, transfers, file tools, HTTP routing, dashboards, configuration, telemetry, session registry and metrics: input and output, or facts about single branches.
