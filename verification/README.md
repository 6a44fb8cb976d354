# Verified model of the FDC3 desktop agent's registries and protocols

This project models the shared state of an FDC3 desktop agent and proves laws
about it: the channel manager with its members, private-channel invites and
context cache; the synchronisation of channel state received from a desktop
agent bridge; the listener store; the priority indexes of intent handlers; the
tables that match responses to waiting futures; intent discovery; routing; the
cleanup of a disconnected instance; and the event bus between workers.

Registries that the program updates in place are classes. Each method is proved
against a function on values that says what the operation does to the whole
state, and the laws are lemmas about those functions and about arbitrary
sequences of them. Protocols with several actors are state machines whose steps
interleave freely.

Check everything with `dafny verify dfyconfig.toml`.

## Files

| file | content |
|---|---|
| Basics.dfy | optional values, results, list primitives |
| Channels.dfy | channel manager: operations on values, and the class |
| ChannelRuns.dfy | member-count law over all runs; destroy against delete |
| ChannelReplay.dfy | replaying the emitted events; which events a run emits |
| ChannelLaws.dfy | conservation of member entries; when leaving undoes joining; what a recreated channel inherits; what the queries mean; what a removal spares; remote listeners by history |
| InviteLedger.dfy | the DACP channel handlers and the ledger of invitation tokens |
| RequestRules.dfy | who may do what: outcomes of requests on the records, and over runs |
| ContextHistory.dfy | the context cache against what was stored |
| ChannelSync.dfy | merging a bridge's channel state; notifications; convergence |
| Listeners.dfy | three listener tables and their reverse index |
| ListenerHistory.dfy | which listeners are there after a run, and what queries answer |
| PriorityIndex.dfy, Registries.dfy | priority index against a stable sort; both registries |
| HandlerHistory.dfy | which handlers and plugins are live after a run, and what queries answer |
| Correlation.dfy | request/response table under all interleavings |
| BridgeSession.dfy | callers, receive loop and disconnect cleanup of the bridge client |
| BridgeCalls.dfy | what a call over the bridge gets |
| Apps.dfy, Routing.dfy | instance lifecycle; broadcast and intent targets |
| Cleanup.dfy | disconnect cleanup across all registries |
| Discovery.dfy, DiscoveryRules.dfy | intent discovery against a declarative reading; that reading in terms of records and texts |
| EventBus.dfy | event fan-out, log watching, workers sharing a log |

## What the proofs found

Each of these is a property that fails for some inputs. The lemmas named give
the exact condition under which it holds, and a failing input where that is not
plain from the condition.

- A context whose type is the reserved key `__last__` shares the cache entry of
  the last context (`ContextHistory.ContextIsLatest`), and can leave listeners
  behind after a bridge update (`ChannelSync.UpdateConvergesIff`,
  `ChannelSync.ReservedTypeDiverges`).
- A member with both a typed and an untyped listener can be left with an older
  context after a bridge update, on ordinary types, because an unchanged last
  context is not sent again (`ChannelSync.UntypedConvergesIff`,
  `ChannelSync.TypedAndUntypedDiverge`).
- Notifications carry no channel, so two channels of one update that share a
  member can overwrite each other's context (`ChannelSync.WholeUpdateConvergesIff`,
  `ChannelSync.WholeUpdateUntypedConvergesIff`). It happens to an owner joined to
  another channel than its private one (`ChannelSync.SharedMemberDiverges`,
  `ChannelSync.SharedMemberIsReachable`).
- The unknown-channel branch of a bridge update keeps the last listed context of
  a type, the known-channel branch the first; they agree exactly when the two
  coincide for every type (`ChannelSync.UnknownLikeEmptyKnownIff`).
- Repeating a bridge update sends again when the list holds two different
  contexts of one type (`ChannelSync.ReapplySilentIff`).
- Leaving does not undo joining for an instance that had a current channel, or
  was listed in the channel (as its owner may be) without being listed last, or
  was still recorded as a participant of it, if it is private
  (`ChannelLaws.LeaveUndoesJoinIff`).
- `destroy_private_channel` clears only instances in the member list; that this
  is everyone follows from the member-count law
  (`ChannelRuns.DestroyEqualsDeleteIff`). It also accepts channels that are not
  private, although its docstring speaks of private channels only.
- Removing a listener registered under an empty instance id leaves its index
  entry behind (`Listeners.RemoveKeepsAgreementIff`).
- Cleanup unregisters external handlers only if the instance still has a
  connection (`Cleanup.HandlersRemovedIff`).
- Switching from a private channel discards no participant record, so the
  record can outlive the instance (`Cleanup.ParticipationsRemovedIff`,
  `Cleanup.SwitchLeavesParticipant`).
- A response that arrives between sending and registering is lost
  (`Correlation.ReplyArrivesIff`); the client's `_send_and_wait` uses that
  order. `_clear_pending_intent` has no caller, so a pending intent that timed
  out stays in the table (`Correlation.EntryStaysIff`).
- A request id can leave the response table more than once: `join_user_channel`
  may send one request object twice (`Correlation.DeparturesOfRequest`,
  `Correlation.RetriedRequestLeavesTwice`). Futures leave it once
  (`Correlation.RunKeepsNet`).
- A bridge request whose send raises leaves its entry behind
  (`BridgeSession.LeftBehindIff`, `BridgeSession.LeftBehindUntil`).
- A bridge update handled while a cleanup is under way can restore the assigned
  name that the cleanup reset (`BridgeSession.CleanupResetsIff`,
  `BridgeSession.LateUpdateSurvivesCleanup`).
- A worker's subscribers receive the worker's own published events a second time
  from the log (`EventBus.GivenOnceIff`, `EventBus.OwnEventsComeTwice`).
- A resolved intent can reach another instance than the one selected, when an
  earlier registered one has the same app and instance ids
  (`Routing.ResolutionReachesSelectedIff`, `Routing.ResolutionReachesTwin`).
- A broadcast without a channel reaches listeners bound to any channel, because
  an absent channel id switches the channel filter off
  (`Routing.BroadcastRespectsBindingsIff`, `Routing.ChannellessBroadcastReachesBound`).

## Model

| member | source | states |
|---|---|---|
| Channels.ChannelManager.CreateChannel | fdc3/desktop_agent/core/channel_manager.py:45-67 | an existing channel object is returned as it is; a new one is empty and announced |
| Channels.ChannelManager.CreatePrivateChannel | fdc3/desktop_agent/core/channel_manager.py:109-126 | refused exactly when the assigned id is taken; else the owner is listed, owner and participant, with no joined channel of its own |
| Channels.ChannelManager.JoinChannel | fdc3/desktop_agent/core/channel_manager.py:191-240 | the whole new state: one entry leaves the old channel, one is appended to the new; unknown channels change nothing; channel objects keep their identity |
| Channels.ChannelManager.LeaveCurrentChannel | fdc3/desktop_agent/core/channel_manager.py:242-282 | the whole new state: one entry and, in a private channel, the participant record go |
| Channels.ChannelManager.DeleteChannel | fdc3/desktop_agent/core/channel_manager.py:69-107 | true exactly for known channels; every record under the id and every instance pointing at it is gone |
| Channels.ChannelManager.DestroyPrivateChannel | fdc3/desktop_agent/core/channel_manager.py:312-333 | every record under the id is gone, and the current channel of those listed as members |
| Channels.ChannelManager.CreatePrivateChannelInvite | fdc3/desktop_agent/core/channel_manager.py:128-145 | refused exactly for channels that are not known private ones; else the token is outstanding |
| Channels.ChannelManager.ConsumePrivateChannelInvite | fdc3/desktop_agent/core/channel_manager.py:147-163 | accepted exactly if the token is outstanding and open or meant for the instance; then it is gone, and no empty table is kept |
| Channels.ChannelManager.SetChannelContext | fdc3/desktop_agent/core/channel_context.py:16-30 | contexts without a type are ignored; others are cached under type and last-context key |
| Channels.ChannelManager.GetChannelContext | fdc3/desktop_agent/core/channel_context.py:33-45 | the cached context of the type, or the last one |
| Channels.ChannelManager.ClearChannelContext | fdc3/desktop_agent/core/channel_context.py:48-50 | all cached contexts of the channel go and nothing else |
| Channels.ChannelManager.BroadcastToChannel | fdc3/desktop_agent/core/channel_manager.py:335-346 | stores and announces on known channels only |
| Channels.ChannelManager.AddRemotePrivateChannelListener | fdc3/desktop_agent/core/channel_manager.py:362-371 | the agent is listed; empty names change nothing |
| Channels.ChannelManager.RemoveRemotePrivateChannelListener | fdc3/desktop_agent/core/channel_manager.py:373-385 | the agent is gone and an emptied set is dropped |
| ChannelRuns.RunKeepsInv | fdc3/desktop_agent/core/channel_manager.py:45-126 | in every run an instance is listed in a channel exactly once for having joined it plus once for owning it, and every record names a known (private) channel |
| ChannelRuns.JoinKeepsInv | fdc3/desktop_agent/core/channel_manager.py:191-240 | joining, rejoining and switching keep the member counts |
| ChannelRuns.LeaveKeepsInv | fdc3/desktop_agent/core/channel_manager.py:242-282 | leaving keeps the member counts |
| ChannelRuns.DestroyEqualsDelete | fdc3/desktop_agent/core/channel_manager.py:312-333 | under the count law, walking the members and scanning all instances end in the same state, with nobody pointing at the removed channel |
| ChannelRuns.DestroyEqualsDeleteIff | fdc3/desktop_agent/core/channel_manager.py:326-328 | in any state the two agree exactly when everyone whose current channel it is is listed |
| ChannelReplay.RunIsReplayed | fdc3/desktop_agent/core/channel_manager.py:432-447 | folding the emitted events from nothing rebuilds channel ids, current channels and, in order, every member list up to the owner's creation entry |
| ChannelReplay.JoinIsReplayed | fdc3/desktop_agent/core/channel_manager.py:237-240 | the left and joined events of a join say all that changed |
| ChannelReplay.RemovalIsReplayed | fdc3/desktop_agent/core/channel_manager.py:106-106 | a deleted or destroyed event says all that changed |
| ChannelReplay.RunAnnounces | fdc3/desktop_agent/core/channel_manager.py:66-67 | in every run the emitted events are, in order, exactly those that the operations announce, read off the state before each |
| ChannelLaws.RunConservesEntries | fdc3/desktop_agent/core/channel_manager.py:109-126 | in every run the member entries of all channels number the joined instances plus the owned channels |
| ChannelLaws.EntriesConserved | fdc3/desktop_agent/core/channel_manager.py:191-282 | the same in any state that keeps the count law |
| ChannelLaws.CurrentChannelIff | fdc3/desktop_agent/core/channel_manager.py:284-290 | under the count law an instance has no channel to report exactly if it has joined none or the one with the empty id; a reported channel is known and lists it |
| ChannelLaws.MembersAreJoinedOrOwner | fdc3/desktop_agent/core/channel_manager.py:292-302 | under the count law the listed members are exactly the joined instances and the owner, and only an owner that joined is listed twice |
| ChannelLaws.LeaveUndoesJoinIff | fdc3/desktop_agent/core/channel_manager.py:191-282 | leaving restores the state before a join exactly when the instance had no current channel, was unlisted or listed last, and was not yet a recorded participant of a private channel |
| ChannelLaws.RecreatedIsBlank | fdc3/desktop_agent/core/channel_manager.py:69-107 | an id created again after a deletion or destruction inherits no member, owner, participant, invite, remote listener, context or current channel |
| ChannelLaws.FirstCreatedIsBlankIff | fdc3/desktop_agent/core/channel_manager.py:45-67 | an id created while unknown is blank exactly when no remote listener or context was recorded for it before |
| ChannelLaws.RemoveRemoteUndoesAddIff | fdc3/desktop_agent/core/channel_manager.py:362-385 | removing a remote listener undoes adding it exactly when it was not listed |
| ChannelLaws.RunKeepsRemoteNonempty | fdc3/desktop_agent/core/channel_manager.py:373-385 | in every run no empty set of remote listeners is kept |
| ChannelLaws.RunListsRemote | fdc3/desktop_agent/core/channel_manager.py:362-385 | in every run an agent is listed for a channel exactly if it was added, under non-empty names, and since then neither removed nor the channel deleted or destroyed |
| ChannelLaws.RemovalSparesOthers | fdc3/desktop_agent/core/channel_manager.py:69-107 | deleting or destroying a channel leaves every record under every other id, and everyone who joined another channel there |
| InviteLedger.ChannelHandlers.HandleJoinUserChannel | fdc3/desktop_agent/handlers/dacp/channel.py:182-207 | only user channels can be joined this way; the reply and the new state |
| InviteLedger.ChannelHandlers.HandleJoinPrivateChannel | fdc3/desktop_agent/handlers/dacp/channel.py:270-319 | owners enter freely, others only by consuming an accepted token; a refusal changes nothing |
| InviteLedger.ChannelHandlers.HandleLeaveCurrentChannel | fdc3/desktop_agent/handlers/dacp/channel.py:248-267 | always answered; the instance leaves |
| InviteLedger.ChannelHandlers.HandleLeavePrivateChannel | fdc3/desktop_agent/handlers/dacp/channel.py:322-360 | allowed exactly from the current channel |
| InviteLedger.ChannelHandlers.HandleCreatePrivateChannel | fdc3/desktop_agent/handlers/dacp/channel.py:363-403 | fails exactly when the generated id is taken |
| InviteLedger.ChannelHandlers.HandleCreateInvitation | fdc3/desktop_agent/handlers/dacp/channel.py:406-448 | only the owner of a private channel issues tokens |
| InviteLedger.ChannelHandlers.HandleDisconnectPrivateChannel | fdc3/desktop_agent/handlers/dacp/channel.py:451-493 | the owner or a listed member destroys the channel |
| InviteLedger.RunKeepsLedger | fdc3/desktop_agent/core/channel_manager.py:128-163 | in every run of requests with fresh tokens, all books balance: issued tokens are outstanding or consumed by an instance they admit, tokens belong to one channel, and every participant owns the channel or paid |
| InviteLedger.MembersWereAdmitted | fdc3/desktop_agent/handlers/dacp/channel.py:290-310 | every listed member of a private channel owns it or consumed a token issued for it, open or naming that member |
| InviteLedger.TokensConserved | fdc3/desktop_agent/core/channel_manager.py:128-163 | issued = outstanding + consumed, and participants besides the owner never outnumber consumed tokens |
| InviteLedger.TokenConsumedOnce | fdc3/desktop_agent/core/channel_manager.py:147-163 | a consumed token is never accepted again, by any channel, for anyone |
| RequestRules.UserJoinOutcome | fdc3/desktop_agent/handlers/dacp/channel.py:182-207 | a join by name succeeds exactly for user channels, by the id with or without prefix, and then the instance is there; else nothing changes |
| RequestRules.PrivateJoinOutcome | fdc3/desktop_agent/handlers/dacp/channel.py:270-319 | a private channel lets in exactly its owner, who spends no token, and bearers of an outstanding token that admits them, which is then gone; else nothing changes |
| RequestRules.LeaveOutcome | fdc3/desktop_agent/handlers/dacp/channel.py:248-267 | after leaving an instance has no current channel |
| RequestRules.PrivateLeaveOutcome | fdc3/desktop_agent/handlers/dacp/channel.py:322-360 | a private channel is left exactly from within, and not under the empty id |
| RequestRules.PrivateCreationOutcome | fdc3/desktop_agent/handlers/dacp/channel.py:363-403 | a private channel is created exactly under a free id, with its creator as owner, only member and only participant |
| RequestRules.InvitationOutcome | fdc3/desktop_agent/handlers/dacp/channel.py:406-448 | exactly the owner of a private channel issues tokens; the new one stands for whom it was issued, the others stay |
| RequestRules.CloseOutcome | fdc3/desktop_agent/handlers/dacp/channel.py:451-493 | exactly the owner or a listed member of a private channel closes it |
| RequestRules.ChannelGoneIff | fdc3/desktop_agent/handlers/dacp/channel.py:472-493 | of all requests, exactly these and the administrator's take a channel away |
| RequestRules.ClosedByRight | fdc3/desktop_agent/handlers/dacp/channel.py:472-493 | in every run a channel stays until such a request |
| RequestRules.TokenIssuedByOwner | fdc3/desktop_agent/handlers/dacp/channel.py:424-448 | in every run an outstanding token was issued by the owner of the channel at the time, for whom it stands |
| RequestRules.TokenOpensIff | fdc3/desktop_agent/handlers/dacp/channel.py:290-310 | in every run with fresh tokens a token opens a channel exactly if it was issued there, open or for that instance, and not consumed |
| RequestRules.MovedOnlyByItself | fdc3/desktop_agent/core/channel_manager.py:191-282 | nobody's current channel changes but by its own requests or by that channel being taken away |
| ContextHistory.ContextIsLatest | fdc3/desktop_agent/core/channel_context.py:33-45 | after every run the cache answers with the last context stored since the channel was cleared, deleted or destroyed; by type exactly unless the type is the reserved key and the last context is of another type |
| ContextHistory.CacheIsHistory | fdc3/desktop_agent/core/channel_manager.py:335-360 | the cache is the fold of that history |
| ChannelSync.MergeContexts | fdc3/desktop_agent/server/lifespan_bridge.py:192-234 | the loop over the reversed list and the queue it builds are the merge function |
| ChannelSync.StoreContexts | fdc3/desktop_agent/server/lifespan_bridge.py:182-190 | the forward loop of the unknown-channel branch |
| ChannelSync.ProcessChannel | fdc3/desktop_agent/server/lifespan_bridge.py:170-234 | picks the branch by channel or cache entry, stores the result and returns the queue; memberships stay |
| ChannelSync.ApplyChannelsState | fdc3/desktop_agent/server/lifespan_bridge.py:147-252 | every non-empty list in turn, sends in queue order |
| ChannelSync.UpdateIsPerChannel | fdc3/desktop_agent/server/lifespan_bridge.py:157-167 | each channel of an update ends as if processed alone |
| ChannelSync.UpdateSparesOthers | fdc3/desktop_agent/server/lifespan_bridge.py:157-167 | channels not named keep their cache; nothing but caches changes |
| ChannelSync.WholeUpdateStores | fdc3/desktop_agent/server/lifespan_bridge.py:173-234 | a named channel that exists or has cached contexts ends with these overridden by the first listed of each type; one that does neither ends with the last listed of each type; both with the most recent as last |
| ChannelSync.UnknownSendsNothing | fdc3/desktop_agent/server/lifespan_bridge.py:182-190 | a channel that neither exists nor has cached contexts adds nothing to what an update sends |
| ChannelSync.MergeClosedForm | fdc3/desktop_agent/server/lifespan_bridge.py:195-229 | the stored cache is the old one overridden by the first listed context per type, with the most recent as last, whatever the listeners |
| ChannelSync.MergeIdempotent | fdc3/desktop_agent/server/lifespan_bridge.py:195-229 | applying an update again never changes the cache |
| ChannelSync.ReapplySilentIff | fdc3/desktop_agent/server/lifespan_bridge.py:195-229 | applying it again sends nothing to any audience exactly when the list is unanimous per type |
| ChannelSync.DistinctTypesUnanimous | fdc3/desktop_agent/server/lifespan_bridge.py:195-229 | pairwise distinct types are unanimous |
| ChannelSync.UnknownLikeEmptyKnownIff | fdc3/desktop_agent/server/lifespan_bridge.py:182-190 | the unknown branch stores what the known branch would from an empty cache exactly when, per type, the first and last listed contexts are equal |
| ChannelSync.DistinctTypesUnknownLikeKnown | fdc3/desktop_agent/server/lifespan_bridge.py:182-190 | so for pairwise distinct types they always agree |
| ChannelSync.UpdateConvergesIff | fdc3/desktop_agent/server/lifespan_bridge.py:192-234 | a member whose last received context of a listened type was the stored one has the newly stored one after the queue is delivered, even with repeated types; exactly unless the type is the reserved key and the most recent context is of another type |
| ChannelSync.UntypedConvergesIff | fdc3/desktop_agent/server/lifespan_bridge.py:195-229 | a member with an untyped listener, whatever its others, follows the last context exactly if that was not yet the cached last, or is the latest news for its typed listeners, or nothing is news for them and the last context stays |
| ChannelSync.TypedAndUntypedDiverge | fdc3/desktop_agent/server/lifespan_bridge.py:195-229 | a concrete update of ordinary types that leaves such a member with an older context |
| ChannelSync.ReservedTypeDiverges | fdc3/desktop_agent/server/lifespan_bridge.py:214-229 | a concrete list on which a listener for the reserved type diverges |
| ChannelSync.WholeUpdateConvergesIff | fdc3/desktop_agent/server/lifespan_bridge.py:157-252 | over an update of many channels a member follows a channel in any type exactly if the last context of the type that any channel sends it, in closed form, is the one stored there, or none is sent and the stored one stays |
| ChannelSync.ListedOnceConverges | fdc3/desktop_agent/server/lifespan_bridge.py:157-252 | so a member listed in no other named channel always follows |
| ChannelSync.SharedMemberDiverges | fdc3/desktop_agent/server/lifespan_bridge.py:157-252 | after any run that lists an instance in two channels with nothing cached, an update leaves it with the second channel's context while the first stores another |
| ChannelSync.SharedMemberIsReachable | fdc3/desktop_agent/core/channel_manager.py:109-126 | a run that leads there: an owner joins another channel |
| ChannelSync.WholeUpdateUntypedConvergesIff | fdc3/desktop_agent/server/lifespan_bridge.py:157-252 | a member with an untyped listener follows a channel's last context over a whole update exactly if that is what the last channel to send it anything leaves, or nothing is sent and it stays |
| Listeners.ListenerStore.AddContextListener | fdc3/desktop_agent/core/listener_store.py:56-68 | stored under its id, in place if the id exists, and indexed under its instance |
| Listeners.ListenerStore.AddIntentListener | fdc3/desktop_agent/core/listener_store.py:70-76 | the same for intents |
| Listeners.ListenerStore.AddEventListener | fdc3/desktop_agent/core/listener_store.py:78-88 | the same for events |
| Listeners.ListenerStore.RemoveListener | fdc3/desktop_agent/core/listener_store.py:90-123 | returns and removes the first listener found under the id, with its index entry |
| Listeners.ListenerStore.RemoveListenersForInstance | fdc3/desktop_agent/core/listener_store.py:186-192 | all three tables filtered by instance, the index entry gone |
| Listeners.ListenerStore.GetContextListeners | fdc3/desktop_agent/core/listener_store.py:125-150 | exactly the listeners of the type or of any type, on the channel or global, in order |
| Listeners.ListenerStore.GetIntentListeners | fdc3/desktop_agent/core/listener_store.py:152-157 | exactly the listeners of the intent |
| Listeners.RunKeepsStore | fdc3/desktop_agent/core/listener_store.py:48-123 | in every run with fresh ids the index and the tables agree; completely so if no listener has an empty instance id |
| Listeners.AddKeepsAgreementIff | fdc3/desktop_agent/core/listener_store.py:56-68 | adding keeps the agreement exactly when the id is free or replaces a context listener of the same instance |
| Listeners.RemoveKeepsAgreementIff | fdc3/desktop_agent/core/listener_store.py:118-121 | removing keeps it exactly unless the listener's instance id is empty |
| Listeners.RemovalOrderIsIrrelevant | fdc3/desktop_agent/core/listener_store.py:186-192 | removing an instance's ids one by one, in any order, is filtering by instance |
| Listeners.RemoveInstanceIsolates | fdc3/desktop_agent/core/listener_store.py:186-192 | afterwards nothing of the instance is left and everything of the others is |
| ListenerHistory.RunTablesAreLive | fdc3/desktop_agent/core/listener_store.py:48-123 | in every run with fresh ids each table holds, in order, exactly the listeners added to it and not removed since |
| ListenerHistory.RunTablesAreTyped | fdc3/desktop_agent/core/listener_store.py:56-88 | each table holds listeners of its own kind only |
| ListenerHistory.IntentQueryAnswersLive | fdc3/desktop_agent/core/listener_store.py:152-157 | in every run the listeners found for an intent are exactly those added for it and not removed since |
| ListenerHistory.ContextQueryAnswersLive | fdc3/desktop_agent/core/listener_store.py:125-150 | the same for a context type and a channel |
| ListenerHistory.AdditionExtendsAnswers | fdc3/desktop_agent/core/listener_store.py:56-88 | after a fresh addition each query answers as before, followed by the new listener exactly if it was added to the table asked and matches |
| PriorityIndex.SortIsStable | fdc3/desktop_agent/core/external_registry.py:54-55 | the sort is descending and keeps the order within each priority |
| PriorityIndex.StableSortUnique | fdc3/desktop_agent/core/external_registry.py:54-55 | those two properties determine the list |
| PriorityIndex.SortAfterAppend | fdc3/desktop_agent/core/external_registry.py:52-55 | appending to a sorted list and sorting again is sorting everything once |
| PriorityIndex.FilterCommutesWithSort | fdc3/desktop_agent/core/external_registry.py:68-76 | filtering a sorted list is sorting the filtered list |
| PriorityIndex.RunIndexIsSort | fdc3/desktop_agent/core/external_registry.py:33-93 | in every run with fresh ids each intent's list is one stable sort of the live handlers in registration order, with multiplicity, and no empty list is kept |
| PriorityIndex.UnregisterByInstanceKeepsSort | fdc3/desktop_agent/core/external_registry.py:85-93 | dropping an instance leaves exactly the others' handlers with their index |
| PriorityIndex.FirstHandlerIsBest | fdc3/desktop_agent/handlers/dacp/intent.py:1164-1169 | the handler chosen has the highest priority and was registered first among those |
| HandlerHistory.RunHandlersAreLive | fdc3/desktop_agent/core/external_registry.py:33-93 | in every run with fresh ids the handlers are, in order, exactly those registered and not unregistered since, by id or by instance |
| HandlerHistory.QueryAnswersLive | fdc3/desktop_agent/core/external_registry.py:82-83 | so an intent's list holds each such handler as often as it lists the intent, and no other, in the order of their stable sort |
| Registries.ExternalHandlerRegistry.RegisterHandler | fdc3/desktop_agent/core/external_registry.py:33-60 | the append-and-sort loop over the intents |
| Registries.ExternalHandlerRegistry.UnregisterHandler | fdc3/desktop_agent/core/external_registry.py:62-80 | the filter loop; unknown handlers change nothing |
| Registries.ExternalHandlerRegistry.UnregisterInstance | fdc3/desktop_agent/core/external_registry.py:85-93 | unregisters each handler of the instance |
| Registries.ExternalHandlerRegistry.GetHandlersForIntent | fdc3/desktop_agent/core/external_registry.py:82-83 | the from-scratch stable sort of the live handlers of the intent |
| Registries.PluginRegistry.AddPlugin | fdc3/desktop_agent/plugins/interfaces.py:144-166 | a registered object is not added twice |
| Registries.PluginRegistry.RemovePlugin | fdc3/desktop_agent/plugins/interfaces.py:168-189 | unknown objects change nothing |
| Registries.RunPluginsIndexed | fdc3/desktop_agent/plugins/interfaces.py:144-189 | the plugin index obeys the same law in every run |
| HandlerHistory.RunPluginsAreLive | fdc3/desktop_agent/plugins/interfaces.py:144-189 | in every run the plugins are exactly the objects added and not removed since, in the order of the additions that count |
| HandlerHistory.PluginQueryAnswersLive | fdc3/desktop_agent/plugins/interfaces.py:144-189 | an intent's list holds each such object as often as it lists the intent, and no other |
| Correlation.PendingTable.RegisterPendingIntent | fdc3/desktop_agent/core/__init__.py:67-90 | a future already stored under the id is kept and returned |
| Correlation.PendingTable.RegisterPendingResponse | fdc3/client/client.py:215-226 | a new future is stored under the id |
| Correlation.PendingTable.ClearPending | fdc3/client/client.py:228-230 | the entry is dropped, if any |
| Correlation.PendingTable.ResolvePending | fdc3/client/client.py:252-284 | the entry is taken out and its future settled here or on its own loop, unless it is done |
| Correlation.PendingTable.FailAllPending | fdc3/client/client.py:232-250 | the table is emptied and every waiting future in it fails, here or on its own loop |
| Correlation.RunKeepsNet | fdc3/desktop_agent/core/__init__.py:82-134 | in every interleaving, with request ids used any number of times, each future leaves the table at most once and has exactly if it is not there, and an answer it holds was received and carries its own request id |
| Correlation.SettledNeverChanges | fdc3/client/client.py:262-284 | a settled outcome never changes |
| Correlation.FailureArrives | fdc3/client/client.py:232-250 | in every run emptying the table fails each waiting future in it, at once or when its own loop runs, unless it times out before |
| Correlation.TimeOutCancels | fdc3/desktop_agent/handlers/dacp/intent.py:1200-1205 | a wait that times out has cancelled its future for good |
| Correlation.ArrivalCompletes | fdc3/client/client.py:274-284 | an outcome handed to another loop has arrived once that loop has run it |
| Correlation.ReplyIsNotLost | fdc3/client/client.py:207-212 | registered first, a request's reply reaches its future in every interleaving, unless a timeout, clear or disconnect comes first |
| Correlation.EarlyReplyIsLost | fdc3/client/client.py:315-321 | a response that arrives before registration never answers the request |
| Correlation.ReplyArrivesIff | fdc3/client/client.py:207-212 | unless something else ends the wait, a reply reaches its future exactly if registration came first |
| Correlation.EntryStaysIff | fdc3/desktop_agent/handlers/dacp/intent.py:1200-1205 | an entry stays exactly as long as no response, clear or disconnect takes it and no registration of the same id replaces it; a timeout does not remove it |
| Correlation.DeparturesOfRequest | fdc3/client/client.py:215-230 | a request id leaves the table as often as it was registered, less once if it is there |
| Correlation.RetriedRequestLeavesTwice | fdc3/client/client.py:823-836 | a request object sent twice leaves it twice, with both answers delivered |
| BridgeSession.NameIsLatest | fdc3/desktop_agent/bridging/client.py:292-304 | in every run a name was given by a non-empty addAgent that the receive loop took, and nothing has renamed or reset the agent since |
| BridgeSession.BridgeClient.BeginRequest | fdc3/desktop_agent/bridging/client.py:354-374 | registers exactly when there is a socket; the object makes the moves of the check and the registration |
| BridgeSession.BridgeClient.HandleResponse | fdc3/desktop_agent/bridging/client.py:322-331 | handled exactly when both ids are present; then the object makes the move of the response |
| BridgeSession.BridgeClient.CleanUp | fdc3/desktop_agent/bridging/client.py:166-182 | name, agents and socket are reset, the table is empty, all that was in it is settled, and the object makes the moves of the cleanup |
| BridgeSession.BridgeClient.HandleAgentsUpdate | fdc3/desktop_agent/bridging/client.py:292-304 | the object makes the move of the update |
| BridgeSession.BridgeClient.FinishRequest | fdc3/desktop_agent/bridging/client.py:380-382 | the object makes the last move of a call |
| BridgeSession.NoWaitAcrossDisconnect | fdc3/desktop_agent/bridging/client.py:150-185 | in every interleaving, once a disconnect is processed no sending or waiting call is kept waiting, and each ended by its own answer, a timeout or AgentDisconnected |
| BridgeSession.WaiterIsInTable | fdc3/desktop_agent/bridging/client.py:370-382 | while an enrolled call waits, the table leads to its future |
| BridgeCalls.CallIsAnswered | fdc3/desktop_agent/bridging/client.py:354-382 | from any state with a connection a new call is sent, its response is its result, and its entry is gone when it returns |
| BridgeCalls.CallTimesOut | fdc3/desktop_agent/bridging/client.py:378-382 | without a response it ends cancelled, and its entry is gone |
| BridgeCalls.CallIsRefused | fdc3/desktop_agent/bridging/client.py:354-355 | without a socket, as after `stop` or a cleanup, a call leaves no trace |
| BridgeCalls.EndedIsSettled | fdc3/desktop_agent/bridging/client.py:378-382 | in every interleaving a call that waited to the end has a settled future |
| BridgeCalls.AgentsAreLatest | fdc3/desktop_agent/bridging/client.py:292-304 | in every run the agents are those of the last update since the last reset, or none |
| BridgeSession.CleanupSettlesAll | fdc3/desktop_agent/bridging/client.py:166-182 | when a cleanup finishes, after a connection or a failed attempt at one, the table is empty, the socket gone and every enrolled request settled |
| BridgeSession.CleanupResetsIff | fdc3/desktop_agent/bridging/client.py:166-182 | every schedule of a cleanup ends with name and agents reset exactly if the receive loop had ended when it began |
| BridgeSession.BothCleanupsOccur | fdc3/desktop_agent/bridging/client.py:187-262 | a run can lose its connection before its receive loop starts and while it runs |
| BridgeSession.LateUpdateSurvivesCleanup | fdc3/desktop_agent/bridging/client.py:166-182 | otherwise any non-empty name and any agents can come back by one update |
| BridgeSession.LeftBehindIff | fdc3/desktop_agent/bridging/client.py:370-382 | a returning call leaves its entry in the table exactly if it returns from sending while its future waits |
| BridgeSession.LeftBehindUntil | fdc3/desktop_agent/bridging/client.py:143-182 | such an entry stays exactly until a response to it is received or the table is emptied, by a disconnect, a failed attempt to connect or `stop` |
| Apps.AppRegistry.RegisterPendingInstance | fdc3/desktop_agent/core/app_registry.py:25-33 | a fresh unconnected record in its place; an existing event is kept |
| Apps.AppRegistry.RegisterInstance | fdc3/desktop_agent/core/app_registry.py:35-50 | a known instance keeps its identity and becomes connected |
| Apps.AppRegistry.UnregisterInstance | fdc3/desktop_agent/core/app_registry.py:65-69 | record and event are gone |
| Apps.RunKeepsConsistent | fdc3/desktop_agent/core/app_registry.py:25-69 | in every run records and events have the same uuids and connected instances have their event set |
| Apps.IdentityIsKept | fdc3/desktop_agent/core/app_registry.py:25-50 | from a pending registration, or the first of an unknown uuid, a record keeps its ids through all later connections, until unregistered or pending again; it is connected exactly if connected since |
| Apps.KnownIffRegistered | fdc3/desktop_agent/core/app_registry.py:25-69 | in every run an instance is known exactly if registered and not unregistered since |
| Apps.EventIsSetIff | fdc3/desktop_agent/core/app_registry.py:25-69 | in every run an event is set exactly if its uuid was connected and not unregistered since |
| Apps.OrderIsKept | fdc3/desktop_agent/core/app_registry.py:25-69 | instances keep their places; a new uuid comes last |
| Routing.ContextRouter.BroadcastContext | fdc3/desktop_agent/core/context_router.py:21-66 | an error exactly without a type; else exactly the hearing listeners' instances and the channel's members, minus the source, and the context stored and announced |
| Routing.TargetsExact | fdc3/desktop_agent/core/context_router.py:36-66 | those targets, listener by listener and member by member, on the named channel or else the source's current one |
| Routing.BroadcastRespectsBindingsIff | fdc3/desktop_agent/core/context_router.py:36-49 | a broadcast reaches only instances that listen globally or on its channel, or are members, exactly if a channel is named or current or all others that listen for the type also do so globally |
| Routing.ChannellessBroadcastReachesBound | fdc3/desktop_agent/core/listener_store.py:125-150 | a concrete broadcast without a channel that reaches a channel-bound listener |
| Routing.ResolvesIff | fdc3/desktop_agent/core/intent_resolver.py:19-40 | an intent resolves exactly if somebody listens for it and the first who does is registered; to that instance's ids |
| Routing.DeliveryExact | fdc3/desktop_agent/core/intent_resolver.py:52-92 | delivery is to one instance exactly if the resolution names an instance id under which one of its app listens; else to every listener's instance in order |
| Routing.ResolutionReachesOne | fdc3/desktop_agent/core/intent_resolver.py:52-92 | a resolution with an instance id reaches exactly one instance, which listens and has the resolved ids |
| Routing.ResolutionReachesSelectedIff | fdc3/desktop_agent/core/intent_resolver.py:19-40 | it is the selected instance exactly when no earlier one has the same ids and listens |
| Routing.ResolutionReachesTwin | fdc3/desktop_agent/core/intent_resolver.py:52-92 | two instances registered under the same ids, the second listening first, on which it is not |
| Cleanup.Agent.CleanUpInstance | fdc3/desktop_agent/server/websocket.py:33-51 | the removals from all registries in their order |
| Cleanup.Agent.DropConnection | fdc3/desktop_agent/handlers/connection_manager.py:24-35 | without a connection nothing happens |
| Cleanup.CleanUpRemoves | fdc3/desktop_agent/server/websocket.py:33-51 | no registration, event, listener, index entry, current channel, client or connection is left, and no membership but of owned channels |
| Cleanup.StaysParticipantIff | fdc3/desktop_agent/core/channel_manager.py:242-282 | the instance stays a recorded participant exactly of the recorded channels that are not its current one |
| Cleanup.ParticipationsRemovedIff | fdc3/desktop_agent/core/channel_manager.py:242-282 | no participation but in owned channels is left exactly if there was none but in those and the current one |
| Cleanup.SwitchLeavesParticipant | fdc3/desktop_agent/core/channel_manager.py:191-240 | every run in which a guest of a private channel switches channels before leaving keeps its record |
| Cleanup.HandlersRemovedIff | fdc3/desktop_agent/handlers/connection_manager.py:24-35 | external handlers are gone exactly when a connection existed or there were none |
| Cleanup.CleanUpSparesOthers | fdc3/desktop_agent/server/websocket.py:33-51 | every other instance keeps registration, event, listeners, index entry, connection, client, handlers in order, and all that the channel manager holds of it |
| Cleanup.LeaveSparesOthers | fdc3/desktop_agent/core/channel_manager.py:242-282 | leaving changes nobody else's channel, entries or participations, no channel's kind, and no owner, invite, context or remote listener |
| Cleanup.CleanUpKeepsSane | fdc3/desktop_agent/server/websocket.py:33-51 | the invariants of all registries survive |
| Discovery.CollectAppIntents | fdc3/desktop_agent/handlers/dacp/intent.py:217-341 | the groups hold an app for an intent exactly when the last directory offer or a running listener makes it a candidate and it passes the context, typed-channel and result-type filters; strictly sorted, no empty group; the constraint flag exactly |
| DiscoveryRules.FoundExact | fdc3/desktop_agent/handlers/dacp/intent.py:217-341 | an app is found for an intent exactly if the directory's last entry on both, or a listener where it is silent, says it handles it, the enforced context is among its types, a `channel<x>` result is of the context's type, and the requested result type is met |
| DiscoveryRules.ConstraintsExact | fdc3/desktop_agent/handlers/dacp/intent.py:217-341 | the constraint flag is up exactly if some directory entry restricts contexts or some app that handles an intent and takes the context has a typed channel result |
| DiscoveryRules.CandidateExact | fdc3/desktop_agent/handlers/dacp/intent.py:255-307 | the context types an app has for an intent are those of the last directory entry on both, or unrestricted for a listener alone |
| DiscoveryRules.NormalizeExact | fdc3/desktop_agent/handlers/dacp/intent.py:233-262 | an entry names its intent and restricts its contexts by its first fields that count as true |
| DiscoveryRules.TypedChannelContextExact | fdc3/desktop_agent/handlers/dacp/intent.py:194-202 | the extracted type is `x` exactly for texts that read `channel<x>` up to white space, and none exactly for all others |
| DiscoveryRules.TypedFilterExact | fdc3/desktop_agent/handlers/dacp/intent.py:321-328 | a result that reads `channel<x>` passes exactly if `x` is the context type or there is none |
| DiscoveryRules.MatchesResultTypeExact | fdc3/desktop_agent/handlers/dacp/intent.py:172-192 | the match in terms of the two texts |
| DiscoveryRules.StripExact | fdc3/desktop_agent/handlers/dacp/intent.py:180-181 | stripping takes off the white space at both ends and nothing else |
| Discovery.FilterApps | fdc3/desktop_agent/handlers/dacp/intent.py:311-334 | the inner loop keeps exactly the allowed apps in order |
| Discovery.CollectDirectory | fdc3/desktop_agent/handlers/dacp/intent.py:274-293 | the last directory offer per intent and app wins |
| Discovery.CollectListeners | fdc3/desktop_agent/handlers/dacp/intent.py:295-307 | listeners add unrestricted apps and override nothing |
| Discovery.SortedNames | fdc3/desktop_agent/handlers/dacp/intent.py:310-312 | the names in strict code-point order |
| DiscoveryRules.LessExact | fdc3/desktop_agent/handlers/dacp/intent.py:310-312 | names are ordered by their first difference, prefixes first |
| Discovery.GroupsUnique | fdc3/desktop_agent/handlers/dacp/intent.py:309-341 | order and membership determine the result |
| Discovery.EnforcingShrinks | fdc3/desktop_agent/handlers/dacp/intent.py:313-319 | enforcing the context only removes apps |
| Discovery.MatchesResultTypeIff | fdc3/desktop_agent/handlers/dacp/intent.py:172-192 | the exact condition; the branch for typed requests adds nothing |
| Discovery.MatchesResultTypeTransitive | fdc3/desktop_agent/handlers/dacp/intent.py:172-192 | what satisfies a satisfying type satisfies the request |
| EventBus.ChannelEvents.Subscribe | fdc3/desktop_agent/core/channel_manager.py:411-425 | a new id, different from all in use |
| EventBus.ChannelEvents.EmitEvent | fdc3/desktop_agent/core/channel_events.py:24-77 | the subscribers that follow the channel are called, each once, in ascending order of subscription, and nobody else; the event is published exactly when it is local and there is an adapter |
| EventBus.EmissionCallsFollowers | fdc3/desktop_agent/core/channel_events.py:24-63 | the same of every emission of a worker, local or from the log |
| EventBus.ProcessWatchResponse | fdc3/desktop_agent/distributed/consul_adapter.py:139-162 | items with a seen key or without a value are skipped; keys are marked on delivery |
| EventBus.CutIsIrrelevant | fdc3/desktop_agent/distributed/consul_adapter.py:164-208 | a watch loop delivers what one response holding everything would |
| EventBus.EachKeyOnce | fdc3/desktop_agent/distributed/consul_adapter.py:139-162 | over all responses a key is delivered once if it ever has a value, else never |
| EventBus.LoopDeliversNews | fdc3/desktop_agent/distributed/consul_adapter.py:139-208 | a watch loop delivers, in order, exactly the items with a value that are the first such with their key, and all those without a key |
| EventBus.NoAmplification | fdc3/desktop_agent/server/lifespan_distributed.py:37-60 | in every run of any number of workers, each emitting again what it receives, the log holds no event more often than it was emitted locally |
| EventBus.NoAmplificationIff | fdc3/desktop_agent/core/channel_events.py:65-68 | that holds in all runs exactly because remote events are not published |
| EventBus.UnguardedLogGrows | fdc3/desktop_agent/core/channel_events.py:65-68 | without that guard one local emission can fill the log to any length |
| EventBus.EachEntryAtMostOncePerWorker | fdc3/desktop_agent/distributed/consul_adapter.py:139-162 | each worker takes each log key at most once and only entries of the log |
| EventBus.GivenOnceIff | fdc3/desktop_agent/server/lifespan_distributed.py:37-60 | a worker's subscribers are given an event as often as the worker emitted it plus once per log entry of it received; so no more often than emitted exactly if none was received, its own included |
| EventBus.WholeLogDeliversAll | fdc3/desktop_agent/server/lifespan_distributed.py:37-60 | a response with the whole log brings a worker up to the full count of every event |
| EventBus.OwnEventsComeTwice | fdc3/desktop_agent/server/lifespan_distributed.py:37-60 | an event emitted and published by one worker alone is then given to its own subscribers exactly twice as often |

## Left out

- InviteLedger.ChannelHandlers.HandleJoinUserChannel: the default user channels that the handler may create first are separate create operations here.
- Channels.ChannelManager.CreateChannel: display metadata is not modelled.
- Correlation.PendingTable.FailAllPending: a scheduling call that itself raises, which the client swallows, is not modelled; scheduled settlements run in any order.
- Registries.PluginRegistry.AddPlugin: a plugin's intents and priority are taken as constant, and its identity as its id.
- Apps.AppRegistry.RegisterInstance: an instance record is a value in the dictionary, so sharing of one record by two holders is not captured; waiting for a connection is left out.
- EventBus.ProcessWatchResponse: the watch index and HTTP errors only decide which responses arrive, so responses are arbitrary; the etcd adapter is left out.
- ChannelSync.ApplyChannelsState: the message envelope, the reuse of one serialised payload for equal contexts, and sends to missing connections are left out.
- EventBus.NoAmplification: the handler of a received event runs with its reception, not as a task of its own; `PublishAll` is a rule the code does not have, there for comparison.
- Each locked channel operation and its emission are one step; subscriber callbacks that call back into the manager, and synthetic events from the admin API, are left out of the replay.
- Generated ids are parameters, required or assumed fresh only where a law needs it.
- The messages of the bridge client's handshake are left out; a connection is up once its socket is set.
- Request handling by the bridge router, findIntent and raiseIntent with explicit targets, system intents and plugin dispatch would add branches but no new law.
- Web routes, GraphQL, message parsing, storage, launching and the user interface are I/O.
