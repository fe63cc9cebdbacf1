# Chat, tokens, datasets: a verified model

The services of this repository share one document database and no transactions. What they promise rests on
small protocols made of single-document conditional updates, run by any number of replicas and requests at once.
This project models those protocols and proves what they keep.

A protocol is a state machine: a `World` of documents and of processes, a `Step` for every database call, and
`Next`, the world after one call of one process. A process keeps only what it has read. Theorems are about
every run of steps from the start (`Machine.After`, `Reachable`), so about every interleaving. Beside a machine
stands a class whose methods are the procedures as they are written, one call after the other: each call is
proved to be the machine's step, and between two calls `Interfere` lets the other processes take any steps.
Fields named as history in a comment are read by no step; they record what happened so that it can be spoken of.
The lemmas named `...Turns` say, document by document, exactly which step changes it, when and to what; those named
`...Alone` what a whole procedure comes to when nobody else acts.

- `Runs`, `RunInvariants`, `RunGuarantees`, `RunExclusion`, `RunEffects`, `Worker`, `Analyst`: questions to the assistant, from
  the outbox on a message to a completed, failed or cancelled run, and the token budget.
- `RefreshTokens`, `OAuthService`, `AuthorizationCodes`: refresh-token rotation (section 6 of RFC 6749, section
  4.14.2 of RFC 9700) and authorization codes (section 4.6 of RFC 7636).
- `Room`, `SharedAssistants`, `ConversationLog`, `ConversationInvariants`, `ConversationGuarantees`,
  `ConversationEffects`, `DisclosedCards`, `ConversationService`: a room's people, the numbered log, notices, fences and consent.
- `Png`: reading and writing PNG images (RFC 2083), on byte arrays.
- `DatasetArchive`, `DatasetEffects`, `DatasetService`: uploads, archives, imports and scans of one dataset.
- `Sessions`, `SessionService`: browser sessions and their tokens.
- `Ownership`: permissions, the filter that must agree with them, transfers.
- `Machine`, `Common`: runs of steps, and shared types.

Taken as given: one update of one document is atomic, unique indexes hold, time does not go back, random tokens
and ids are new, SHA-256 is injective, signatures cannot be forged, and inflating undoes deflating. A call on
many documents (`updateMany`, `deleteMany`) is one step for each document. Where a value comes from outside
(settings, the provider, file storage, other services) it is a parameter or a step that may bring any value.

Three notes on the code against its own words. `worker.ts` says that turns of a conversation never overlap; they
can once a worker takes over an expired lock from a run still going, and only then (`RunExclusion`). Consent
is meant for the assistants as disclosed; an addition that loses its race may rewrite a card others agreed to,
and only such a late one can (`DisclosedCards`). `readableOwnerFilter` accepts the level `none`, for which it is
stricter than the permission it stands for (`Ownership.FilterByNothing`).

## Model

| member | source | states |
|---|---|---|
| RunGuarantees.CancelIsFinal | apps/backend/chat-service/src/services/runService.ts:59-80 | Once a cancel has returned, no question its caller had stored in that conversation before it began is completed later, over every interleaving of replicas queueing, claiming, executing and expiring |
| RunGuarantees.CancelCoversStored | apps/backend/chat-service/src/services/runService.ts:60-66 | Every question stored when the cancel reads the open runs is one it covers |
| RunGuarantees.BudgetConserved | apps/backend/chat-service/src/services/worker.ts:180-186 | In every reachable state a day's `reserved` is the sum over the runs charged to it (the reservation until settled, the tokens after), at least the tokens of the answers, and at most the largest limit a reservation was checked against |
| RunGuarantees.AnswersWithinCharges | apps/backend/chat-service/src/services/worker.ts:292-295 | The tokens of completed runs never exceed what those runs weigh on the budget |
| RunGuarantees.ChargesMoveOneWay | apps/backend/chat-service/src/services/worker.ts:180-186 | Each run is charged at most once and settled at most once, and settling leaves it at no more than its reservation |
| RunGuarantees.RunsInOrder | apps/backend/chat-service/src/services/worker.ts:29-53 | A run is claimed at most once, a question has at most one run, and once a run has been claimed every older run of its conversation has left `queued` |
| RunGuarantees.EndIsFinal | apps/backend/chat-service/src/services/worker.ts:276-307 | A run that is over keeps its state and its tokens for good |
| RunExclusion.RunsNeverOverlap | apps/backend/chat-service/src/services/worker.ts:24-53 | Along any run of steps in which no lock is taken over from a run still going, at most one run of each conversation is running and its conversation's lock names it, whatever crashes, expires, is cancelled or revoked |
| RunExclusion.NoOverlapWhileLocksLast | apps/backend/chat-service/src/services/worker.ts:24-38 | In particular runs never overlap while no expired lock is taken over |
| RunExclusion.OverlapExactlyWhenDisplaced | apps/backend/chat-service/src/services/worker.ts:35-46 | After an expired lock is taken over for another queued run, two runs can come to overlap without further displacement if and only if the run that lost the lock was still going |
| RunExclusion.DisplacedOverlaps | apps/backend/chat-service/src/services/worker.ts:35-46 | A lock displaced from a run of the same conversation leads to an overlap within two steps |
| RunExclusion.RunsCanOverlap | apps/backend/chat-service/src/services/worker.ts:24-28 | From an empty database two runs of one conversation come to run at once, the first with its own lease not yet run out |
| RunExclusion.ExclusiveNext | apps/backend/chat-service/src/services/worker.ts:29-314 | Every step but a displacing take-over keeps every running run named by its lock and nobody else about to start or give it up |
| RunEffects.RunTurns | apps/backend/chat-service/src/services/worker.ts:29-314 | Every step, run by run: `cancelled` exactly by a cancel that reaches it open, a revocation, or its own executor finding the trigger cancelled; `failed` exactly by its executor or by housekeeping past its lease; `completed` exactly by the completion, with the tokens of the answer; `running` exactly by a claim, with a lease of five minutes; charged exactly when the reservation fits the limit read |
| RunEffects.MessageTurns | apps/backend/chat-service/src/services/runService.ts:67-74 | Every step, message by message: cancelled exactly by a cancel, in the outbox or found open, or by a revocation; out of the outbox exactly then or once it has been queued; given a run exactly by the insert that finds none |
| RunEffects.LockTurns | apps/backend/chat-service/src/services/worker.ts:35-50 | Every step, lock by lock: taken exactly when untried by this worker and free or expired, let go exactly by the run it names |
| RunEffects.AnsweredAlone | apps/backend/chat-service/src/services/worker.ts:162-313 | Undisturbed, a claimed run whose trigger is not cancelled and whose day has room is completed and settled with the tokens given, which are exactly what its day gains, and its conversation is let go |
| RunEffects.TurnedAwayAlone | apps/backend/chat-service/src/services/worker.ts:166-187 | Undisturbed, a claimed run ends `cancelled` if its trigger is cancelled and `failed` if its day has no room, and nothing is charged |
| RunEffects.ClaimedAlone | apps/backend/chat-service/src/services/worker.ts:29-46 | Undisturbed, a worker starts the oldest queued run exactly when its conversation is free or its lock expired; otherwise it passes it over and changes nothing |
| RunEffects.QueuedAlone | apps/backend/chat-service/src/services/worker.ts:110-137 | Undisturbed, a stored question comes to have one queued run, of its sender in its conversation, and leaves the outbox |
| RunInvariants.InvNext | apps/backend/chat-service/src/services/worker.ts:29-314 | Every call of every process keeps the whole invariant: what each process knows, one executor for each run, budgets that balance, claims in order, questions sealed by a cancel |
| RunInvariants.ClaimOvertakesNothing | apps/backend/chat-service/src/services/worker.ts:32-46 | Taking the run whose conversation is locked leaves no older run of it queued, however stale the list of candidates |
| RunInvariants.SealedByStep | apps/backend/chat-service/src/services/worker.ts:166-173 | A question that is over, or cancelled with nobody past reading its trigger, stays so through every step |
| RunInvariants.MarkedIsSealing | apps/backend/chat-service/src/services/runService.ts:67-74 | When every message has been reached, each covered question either has a run to stop or can never be answered, because a run is inserted before its outbox entry is removed |
| RunInvariants.BalancedBySettling | apps/backend/chat-service/src/services/worker.ts:292-295 | Giving back what an answer did not use keeps the day's budget equal to what its runs weigh |
| RunInvariants.BalancedByReserving | apps/backend/chat-service/src/services/worker.ts:181-186 | A conditional reservation keeps the budget balanced and under the limit it was checked against |
| Worker.ChatDatabase.CancelRuns | apps/backend/chat-service/src/services/runService.ts:59-80 | The procedure with others interleaved: afterwards, and after any further steps, no question the caller had stored is newly completed; each is cancelled or its run is over; every run there was has been reached, and those still open then are `cancelled`, the others as they ended |
| Worker.ChatDatabase.MarkOne | apps/backend/chat-service/src/services/runService.ts:67-74 | Cancels a message of the caller that is in the outbox or whose run was found open, and no other |
| Worker.ChatDatabase.StopOne | apps/backend/chat-service/src/services/runService.ts:75-78 | `queued` or `running` to `cancelled`; anything else stays |
| Worker.ChatDatabase.Claim | apps/backend/chat-service/src/services/worker.ts:29-53 | Returns a run that is running for the first time with every older run of its conversation out of the queue; nothing only when the conversation of each run found queued was tried while locked or its candidate had left the queue |
| Worker.ChatDatabase.FindQueued | apps/backend/chat-service/src/services/worker.ts:30 | The oldest queued runs, oldest first, each once, at most twenty, with no older queued run left out; all of them when fewer |
| Worker.ChatDatabase.TryCandidate | apps/backend/chat-service/src/services/worker.ts:33-51 | One candidate: started for the first time with no older run of its conversation queued, or passed over because its conversation was tried before or locked, or it had left the queue |
| Worker.ChatDatabase.LockConversation | apps/backend/chat-service/src/services/worker.ts:33-40 | Skips a conversation tried before; takes the lock exactly if it is free or expired |
| Worker.ChatDatabase.StartRun | apps/backend/chat-service/src/services/worker.ts:41-46 | `queued` to `running` with a lease and one more attempt, only if still queued |
| Worker.ChatDatabase.ReleaseConversation | apps/backend/chat-service/src/services/worker.ts:47-50 | Clears the lock only while it names this run |
| Worker.ChatDatabase.Execute | apps/backend/chat-service/src/services/worker.ts:142-314 | Whatever happens, the run is over at the end; a stored answer is completed with exactly the tokens used and its charge is settled; with the guards passed and an answer given, none is stored only if on the way the run had stopped running, its trigger was cancelled or the day was full |
| Worker.ChatDatabase.AnswerQuestion | apps/backend/chat-service/src/services/worker.ts:239-314 | A stored answer holds the tokens of the provider turns up to the one that answered; when some turn answers and the guards pass, only what stops the run on the way prevents it |
| Worker.ChatDatabase.ReadCancelled | apps/backend/chat-service/src/services/worker.ts:166-167 | The trigger is read after the guard; exactly a cancelled one refuses the run |
| Worker.ChatDatabase.ReserveTokens | apps/backend/chat-service/src/services/worker.ts:181-186 | Adds the reservation exactly when the day's total leaves room for it under the limit read before |
| Worker.ChatDatabase.StoreAnswer | apps/backend/chat-service/src/services/worker.ts:276-291 | `running` to `completed` with the tokens, or nothing |
| Worker.ChatDatabase.SettleAnswer | apps/backend/chat-service/src/services/worker.ts:292-295 | Gives back the reservation less the tokens used |
| Worker.ChatDatabase.FailRun | apps/backend/chat-service/src/services/worker.ts:296-307 | `running` to `failed`; a run that ended otherwise stays as it is |
| Worker.ChatDatabase.ExpireRuns | apps/backend/chat-service/src/services/worker.ts:90-108 | Every run that was running past its lease when it began is over afterwards |
| Worker.ChatDatabase.FindExpired | apps/backend/chat-service/src/services/worker.ts:90 | All the runs that are running past their lease |
| Worker.ChatDatabase.ExpireOne | apps/backend/chat-service/src/services/worker.ts:91-102 | `running` to `failed` only if still running past its lease |
| Worker.ChatDatabase.ClearOne | apps/backend/chat-service/src/services/worker.ts:104-107 | Clears the conversation's lock only while it names the expired run |
| Worker.ChatDatabase.RecoverOutbox | apps/backend/chat-service/src/services/worker.ts:110-139 | When the batch is not full, every complete question stored before has a run and is out of the outbox, or is cancelled, afterwards |
| Worker.ChatDatabase.FindPending | apps/backend/chat-service/src/services/worker.ts:110-113 | Only questions in the outbox that are not cancelled, at most the limit; all of them when fewer |
| Worker.ChatDatabase.InsertRun | apps/backend/chat-service/src/services/worker.ts:118-137 | After the upsert the question has a run, the one it had if there was one |
| Analyst.FitHistory | apps/backend/chat-service/src/services/analyst.ts:38-47 | Keeps the history from the first place where it may start (its beginning, a question, the last line) and fits; fails exactly when it fits from none |
| Analyst.KeptStartsWithQuestion | apps/backend/chat-service/src/services/analyst.ts:34-37 | What is kept starts with a question, or is the last line alone, and ends with the question asked |
| Analyst.Analyze | apps/backend/chat-service/src/services/analyst.ts:104-154 | Answers exactly when some round answers after rounds that all went on, with the tokens of every turn taken, never more than the reservation, and the evidence found |
| Analyst.CallTools | apps/backend/chat-service/src/services/analyst.ts:132-151 | Stops at the first call of no allowed tool; otherwise collects exactly the results that were no errors, in order |
| Analyst.EvidenceIsFound | apps/backend/chat-service/src/services/analyst.ts:132-141 | What is found is the calls at increasing places, all those that succeeded and no other |
| Analyst.TokensAdd | apps/backend/chat-service/src/services/analyst.ts:110-111 | Input and output tokens each add up over turns, and of one turn are its own |
| Analyst.LimitsKeepWithin | apps/backend/chat-service/src/services/providers.ts:21-25 | When every request and reply keeps the provider limits, all rounds together keep within the reservation |
| Analyst.EvidenceIsBounded | apps/backend/chat-service/src/services/analyst.ts:128-141 | An answer rests on at most eight results for each earlier round, all of allowed tools |
| RefreshTokens.ExchangedOnce | libs/backend-core/src/oauth/service.ts:215-252 | Each token is redeemed successfully at most once, over all interleavings |
| RefreshTokens.RotationNeverForks | libs/backend-core/src/oauth/service.ts:231-243 | The successes of a generation are one chain from the token issued; the grant's current digest is its end and is in the history under that generation |
| RefreshTokens.SuccessesCarryConsent | libs/backend-core/src/oauth/service.ts:245-251 | Every success carries the user, scopes and resource approved when its generation was issued |
| RefreshTokens.ReplayKills | libs/backend-core/src/oauth/service.ts:226-243 | When a redemption of a token its client had exchanged before ends, it has not succeeded and that generation is revoked or superseded |
| RefreshTokens.ReportedReuseKills | libs/backend-core/src/oauth/service.ts:255-261 | A redemption that reports reuse leaves its generation revoked or superseded |
| RefreshTokens.DeadForGood | libs/backend-core/src/oauth/service.ts:226-228 | A revoked or superseded generation stays so and never yields another success |
| RefreshTokens.OlderNeverTouchesNewer | libs/backend-core/src/oauth/service.ts:254-261 | No step of a redemption changes a grant other than its token's, nor that one once it is of another generation |
| RefreshTokens.CurrentTokenRefreshes | libs/backend-core/src/oauth/service.ts:215-252 | Undisturbed, the current token of a live grant is exchanged for a new one that becomes the current token |
| RefreshTokens.StaleTokenKills | libs/backend-core/src/oauth/service.ts:226-261 | Undisturbed, a token of a live grant that is not its current one, exchanged before or not, is answered as reuse and revokes the grant, and touches nothing else |
| RefreshTokens.GrantTurns | libs/backend-core/src/oauth/service.ts:164-273 | Every step, grant by grant: written whole exactly by the issue begun for it, given another current token exactly by a rotation, revoked exactly by a disconnection or a replay in its generation |
| RefreshTokens.DisconnectedAlone | libs/backend-core/src/oauth/service.ts:264-273 | Undisturbed, disconnecting a user, or one client of theirs, revokes exactly their grants and leaves every other grant as it was |
| RefreshTokens.InvNext | libs/backend-core/src/oauth/service.ts:164-273 | Every call keeps history, grants, chain and pending tokens consistent |
| OAuthService.GrantStore.Issue | libs/backend-core/src/oauth/service.ts:164-187 | The grant is exactly the new approval with a token nobody held, and every generation it had is superseded |
| OAuthService.GrantStore.Redeem | libs/backend-core/src/oauth/service.ts:215-252 | A success carries its generation's approval; a token exchanged before never succeeds and leaves its generation dead; so does reported reuse; it fails only if on the way the token was not the current one of a live grant of this client |
| OAuthService.GrantStore.RotateGrant | libs/backend-core/src/oauth/service.ts:238-243 | Rotates exactly while the presented token is current, the generation unchanged and the grant not revoked |
| OAuthService.GrantStore.RevokeReplayed | libs/backend-core/src/oauth/service.ts:255-261 | Revokes this generation and no other |
| OAuthService.GrantStore.RevokeForUser | libs/backend-core/src/oauth/service.ts:264-273 | Every generation the matching grants had when it began is revoked or superseded afterwards, and the call itself disconnects grants of this user, and of this client if one is named, alone |
| AuthorizationCodes.CodeExchangedOnce | libs/backend-core/src/oauth/service.ts:124-151 | A code is exchanged at most once, before it expires, by the client and for the redirect it was issued to and with the verifier of its challenge, and yields what was agreed to |
| AuthorizationCodes.RefusalBurns | libs/backend-core/src/oauth/service.ts:130-134 | A request that took a code and was refused has burnt it: nobody exchanges it later |
| AuthorizationCodes.SucceedsExactlyWhen | libs/backend-core/src/oauth/service.ts:136-150 | Alone, a request succeeds exactly when the code is there, unused, unexpired and matches; used and unknown codes are told apart |
| AuthorizationCodes.FreshCodeExchanges | libs/backend-core/src/oauth/service.ts:91-151 | Undisturbed, a code just issued is exchanged exactly when asked for within a minute, by its client, for its redirect and with its verifier, and yields what was agreed to |
| AuthorizationCodes.CodeStore.Redeem | libs/backend-core/src/oauth/service.ts:124-151 | A success is logged with what it was given; a code that was fetched and refused is burnt; every refusal is for the reason it gives |
| AuthorizationCodes.CodeStore.FetchAndStamp | libs/backend-core/src/oauth/service.ts:130-134 | Fetches and stamps an unused code in one call |
| ConversationGuarantees.NoNoticeLost | apps/backend/chat-service/src/services/membershipService.ts:15-32 | Every committed membership change has its notice on the document or in the log under its own number, now and after any further steps, although each save overwrites the pending list |
| ConversationGuarantees.LogOrdered | apps/backend/chat-service/src/services/messages.ts:36-47 | Numbers in the log are pairwise distinct and never above the conversation's |
| ConversationGuarantees.MessageStays | apps/backend/chat-service/src/models/Message.ts:45 | A client id names at most one message, which stays as it was across retries |
| ConversationGuarantees.FencedSeesNotices | apps/backend/chat-service/src/services/messages.ts:27-43 | When a version-fenced message is numbered, every notice with a smaller number is in the log |
| ConversationGuarantees.SeesFromAcceptance | apps/backend/chat-service/src/services/access.ts:101-108 | An active person sees exactly the numbers handed out from their last acceptance on; a creator who never left sees all |
| ConversationGuarantees.QuotesSeenByAll | apps/backend/chat-service/src/services/messageService.ts:45-55 | When a quoting reply is numbered, everyone active can see the quoted message |
| ConversationGuarantees.RoomInOrder | apps/backend/chat-service/src/services/membershipService.ts:51-63 | Every reachable room has distinct people, at most twenty of them active or invited, and exactly one active owner while anyone is active |
| ConversationGuarantees.ConsentBindsAudience | apps/backend/chat-service/src/services/sharedAssistants.ts:13-37 | Whenever sharing is enabled, each active person agreed to exactly the present assistants and people, after everyone last joined and after the last change to assistants, lock or policy |
| ConversationGuarantees.SettingsTurnSharingOff | apps/backend/chat-service/src/services/sharedAssistantService.ts:82-97 | A saved settings change other than a consent leaves sharing disabled |
| ConversationGuarantees.RunsUnderSameAgreement | apps/backend/chat-service/src/services/sharedAssistants.ts:101-125 | A shared run passes the worker's check later only with the people and settings its question was sent under |
| ConversationInvariants.InvNext | apps/backend/chat-service/src/models/Conversation.ts:66 | Every call of every request keeps the whole invariant of the room |
| ConversationInvariants.SavedKept | apps/backend/chat-service/src/services/membershipService.ts:15-23 | The guarded save loses no notice and keeps numbers, joins and consents in order |
| ConversationInvariants.NumberedKept | apps/backend/chat-service/src/services/messages.ts:36-43 | The atomic increment keeps numbers in order; fenced, it comes after every notice |
| ConversationInvariants.SharedKept | apps/backend/chat-service/src/services/sharedAssistantService.ts:101-108 | The guarded save of settings keeps every recorded consent tied to the joins it names |
| ConversationEffects.DocTurns | apps/backend/chat-service/src/services/membershipService.ts:15-23 | Every step, field by field: the next number exactly for a message numbered or a change saved, the next version exactly for a change or settings saved, the seats of the change, one notice for it and otherwise those there were but the one pulled, the settings as allowed and changed |
| ConversationEffects.LogTurns | apps/backend/chat-service/src/services/messages.ts:46-63 | Every step, message by message: a message enters the log exactly by its insert or as its notice, under the number reserved for it, and then stays |
| ConversationEffects.LockHolds | apps/backend/chat-service/src/services/sharedAssistantService.ts:93-97 | Once assistants are locked off they stay so, and sharing disabled, over any run of steps until someone who may unlocks them |
| ConversationEffects.AgreementEnables | apps/backend/chat-service/src/services/sharedAssistants.ts:26-37 | In a room with assistants, not locked off, with somebody active and nobody invited, sharing is enabled once everyone active has agreed, undisturbed and in any order |
| ConversationEffects.SentAlone | apps/backend/chat-service/src/services/messageService.ts:29-98 | Undisturbed, with no notice waiting, what someone active sends under a new client id is in the log under the next number, quoting what everyone active can see |
| ConversationEffects.PublishedAlone | apps/backend/chat-service/src/services/worker.ts:70-87 | Undisturbed, with no notice waiting, the answer to a question is published under the next number when it is not fenced, or by the present version |
| ConversationService.Conversations.FlushMembershipEvents | apps/backend/chat-service/src/services/membershipAudit.ts:5-32 | Every notice numbered before it began is in the log afterwards |
| ConversationService.Conversations.AppendMessage | apps/backend/chat-service/src/services/messages.ts:6-66 | Returns the one message of its client id, the one there before if any; nothing only when the fence had moved; every earlier notice is in the log |
| ConversationService.Conversations.ReserveNumber | apps/backend/chat-service/src/services/messages.ts:36-45 | Takes the next number unless the membership version has moved |
| ConversationService.Conversations.InsertMessage | apps/backend/chat-service/src/services/messages.ts:46-63 | Inserts the message, or finds the one its client id already names |
| ConversationService.Conversations.SaveWithAudit | apps/backend/chat-service/src/services/membershipService.ts:15-28 | Saves exactly when neither version nor sequence has moved, with the seats decided and one notice |
| ConversationService.Conversations.UpdateMembership | apps/backend/chat-service/src/services/membershipService.ts:34-72 | Saves exactly when the change, decided on the room as loaded, changes something and neither document nor sequence has moved; the notice that announces it is then in the log when the call returns |
| ConversationService.Conversations.CheckReply | apps/backend/chat-service/src/services/messageService.ts:32-55 | Passes a reply only if the quoted message is visible to its sender and to everyone active |
| ConversationService.Conversations.SendMessage | apps/backend/chat-service/src/services/messageService.ts:29-98 | The draft is fenced by the version loaded and quotes only what its sender and everyone active could see; it is lost only when that version has passed; a message returned is the one its client id names; nothing is sent only if the sender is not active, the client id is another's, or someone active cannot see what is quoted |
| ConversationService.Conversations.SaveSharing | apps/backend/chat-service/src/services/sharedAssistantService.ts:101-108 | Saves exactly when the document has not moved and allows the change, which alone it then holds; sharing is off afterwards unless it was a consent |
| ConversationService.Conversations.UpdateSharedAssistants | apps/backend/chat-service/src/services/sharedAssistantService.ts:19-118 | Saves exactly when the room as loaded allows the change and has not moved; it is then announced in the log under its version |
| DisclosedCards.ConsentBindsCards | apps/backend/chat-service/src/services/sharedAssistantService.ts:55-70 | Along any run of steps in which no addition writes its card after the document has moved, enabled sharing means everyone active agreed after the listed cards were last shown, and they still stand |
| DisclosedCards.CardsStandExactly | apps/backend/chat-service/src/services/sharedAssistantService.ts:65-70 | The cards of the listed assistants stand through a step if and only if it does not write one over with another |
| DisclosedCards.OnlyLateRewrites | apps/backend/chat-service/src/services/sharedAssistantService.ts:60-69 | Only an addition whose document has moved since it was loaded writes over the card of a listed assistant |
| DisclosedCards.ConsentCanMissACard | apps/backend/chat-service/src/services/sharedAssistantService.ts:65-69 | In a room that can be reached, sharing is enabled by a consent to an assistant whose instructions are no longer those agreed to |
| DisclosedCards.RewritingKeepsSharing | apps/backend/chat-service/src/services/sharedAssistantService.ts:65-69 | Writing over a listed card leaves settings and consents as they are |
| ConversationService.Conversations.WriteCard | apps/backend/chat-service/src/services/sharedAssistantService.ts:65-69 | The card is written before the save that lists its assistant |
| Room.ChangeKeepsRoom | apps/backend/chat-service/src/services/membershipService.ts:51-63 | Any accept, decline, leave, invite or removal keeps ids distinct, the limit of twenty, no rank for the invited, and one active owner |
| Room.OwnerHandsOver | apps/backend/chat-service/src/services/membershipService.ts:60-63 | When an owner leaves, the first other active person is owner, and nobody else |
| Room.InvitedExactly | apps/backend/chat-service/src/services/membershipService.ts:74-113 | An invitation is refused exactly when its sender is no active owner or admin, the person is here or blocked, or, not being invited already, the room is full or the two blocked each other; made, it changes that one seat alone |
| Room.RemovedExactly | apps/backend/chat-service/src/services/membershipService.ts:116-128 | A removal is refused exactly when its sender is not the active owner, or names themselves or nobody here; made, it changes that one seat alone |
| Room.AnsweredExactly | apps/backend/chat-service/src/services/membershipService.ts:34-63 | An answer is refused exactly when its sender has left, is blocked or has no seat, or means to block; accepting makes them active from now with history from here, and owner exactly if nobody active is; nobody else changes but the owner that follows |
| Room.CreatedOk | apps/backend/chat-service/src/services/conversationService.ts:118-125 | A new room with one to nineteen distinct invitees is in order |
| Room.Find | apps/backend/chat-service/src/services/membershipService.ts:39 | The first seat of this user, or none |
| Room.Successor | apps/backend/chat-service/src/services/membershipService.ts:61 | The first other active seat, or none |
| Room.RoomDocument.Update | apps/backend/chat-service/src/services/membershipService.ts:34-63 | In place: exactly the seats that accepting, declining or leaving makes, and the next version |
| Room.RoomDocument.InvitePerson | apps/backend/chat-service/src/services/membershipService.ts:74-113 | In place: exactly the seats that an invitation makes, under every refusal of the code |
| Room.RoomDocument.RemovePerson | apps/backend/chat-service/src/services/membershipService.ts:116-128 | In place: exactly the seats that a removal by the owner makes |
| Room.RoomDocument.Count | apps/backend/chat-service/src/services/membershipService.ts:86 | Counts the active and invited |
| SharedAssistants.PeopleAreSeated | apps/backend/chat-service/src/services/sharedAssistants.ts:14-24 | An audience names exactly the people active or invited, each with the join they are in |
| SharedAssistants.ChangeEndsAgreement | apps/backend/chat-service/src/services/sharedAssistantService.ts:43-49 | A change to assistants, lock or addition policy turns sharing off |
| SharedAssistants.UpdatedExactly | apps/backend/chat-service/src/services/sharedAssistantService.ts:29-97 | A change is made exactly when it is allowed (anyone active agrees; adding is for owners and admins, or everyone active if so set, up to five, not locked off; the rest is for owners and admins), and changes the lock, the policy, one assistant or one consent, ending every agreement unless it is a consent |
| SharedAssistants.SameAudienceSameJoins | apps/backend/chat-service/src/services/sharedAssistants.ts:12-25 | Equal audiences have the same assistants and the same people in the same joins |
| Png.PaethIsNearest | apps/backend/mcp-service/src/png.ts:33-39 | The Paeth prediction is the neighbour nearest to a + b - c, ties going to left, then above (section 6.6 of RFC 2083) |
| Png.Unfilter | apps/backend/mcp-service/src/png.ts:42-65 | Undoes every row's filter: each byte is the stored one plus what its row's filter type predicts from its neighbours, modulo 256; `undefined` exactly when some row's filter byte exceeds 4 |
| Png.UnfilteredBytes | apps/backend/mcp-service/src/png.ts:42-65 | Byte by byte: the stored byte plus 0, left, above, their average or their Paeth prediction, by the row's filter type 0 to 4, modulo 256, with 0 outside the image (section 6 of RFC 2083) |
| Png.UnfilterRow | apps/backend/mcp-service/src/png.ts:47-62 | One row in place equals the row undone from the rows above |
| Png.UnfilteringInvertsFiltering | apps/backend/mcp-service/src/png.ts:42-65 | For every image, stride, bytes per pixel and choice of filters 0 to 4, undoing gives back the original bytes (section 6 of RFC 2083) |
| Png.FilterBytesStored | apps/backend/mcp-service/src/png.ts:44-46 | Filtering stores each row's chosen type where undoing reads it |
| Png.ScalingInvertsWidening | apps/backend/mcp-service/src/png.ts:132 | A scaled 16-bit sample is a byte, the nearest one, and scaling inverts multiplication by 257 |
| Png.ReadsBackBE32 | apps/backend/mcp-service/src/png.ts:137-143 | A big-endian length reads back as written |
| Png.ScanChunks | apps/backend/mcp-service/src/png.ts:77-95 | The chunk loop ends on every input and gathers what the parser specifies |
| Png.ParsingInvertsPrinting | apps/backend/mcp-service/src/png.ts:77-95 | Parsing printed chunks gives back what they hold, whatever follows the end chunk |
| Png.GreyValues | apps/backend/mcp-service/src/png.ts:117-133 | Every pixel's grey value, or `undefined` exactly when some pixel has none |
| Png.ReadableExactly | apps/backend/mcp-service/src/png.ts:98-102 | Which formats are read: colour types 0, 2, 4 and 6 at 8 or 16 bits and palettes at 8, of some size |
| Png.NarrowGrey | apps/backend/mcp-service/src/png.ts:117-133 | The grey of a pixel in every 8-bit format, by the place of its bytes |
| Png.WideGrey | apps/backend/mcp-service/src/png.ts:117-133 | The same in every 16-bit format, most significant byte first, with all bytes of the samples compared |
| Png.HeaderFields | apps/backend/mcp-service/src/png.ts:82-90 | Which bytes of the header say width, height, depth, colour type and interlacing |
| Png.DecodeGrey | apps/backend/mcp-service/src/png.ts:71-135 | Decodes every file to what the format says of it, or `undefined` |
| Png.FilterUp | apps/backend/mcp-service/src/png.ts:153-159 | Stores every row as its difference from the row above |
| Png.EncodeRgb | apps/backend/mcp-service/src/png.ts:150-171 | Writes the header, the deflated rows and the end as chunks |
| Png.EncodedLayout | apps/backend/mcp-service/src/png.ts:137-171 | The file written, byte by byte: signature, header chunk, one chunk of deflated rows, end chunk, each with its length, type and checksum |
| Png.RowsStoredUp | apps/backend/mcp-service/src/png.ts:153-159 | Every row deflated begins with filter type 2, and undoing that by the standard gives the image |
| Png.ReadingInvertsWriting | apps/backend/mcp-service/src/png.ts:71-135 | Any stored image of a readable format, with any filters and palette, reads back as the values it holds |
| Png.DecodingInvertsEncoding | apps/backend/mcp-service/src/png.ts:137-171 | Decoding an encoded image gives back its size and every grey value, and `undefined` exactly when some pixel is not grey |
| DatasetArchive.LiveBytesStay | apps/backend/dataset-service/src/services/datasetArchive.ts:76-84 | A deleted file is neither the archive nor a non-discarding upload, and never becomes either again |
| DatasetArchive.ActiveImportHasItsArchive | apps/backend/dataset-service/src/services/datasetImport.ts:37-48 | A queued or running import names the present archive, whose bytes are stored |
| DatasetArchive.ActiveImportKeepsArchive | apps/backend/dataset-service/src/services/datasetArchive.ts:25-31 | While an import is active no request replaces or removes the archive |
| DatasetArchive.ContentsAreOfTheArchive | apps/backend/dataset-service/src/services/datasetArchive.ts:119-129 | Contents and scan are always of the present archive |
| DatasetArchive.ResumeOutdates | apps/backend/dataset-service/src/services/datasetImport.ts:71-76 | Resuming or restarting an import outdates the fence it had |
| DatasetArchive.LateOutcomesAreVoid | apps/backend/dataset-service/src/services/workIdentity.ts:3-7 | A write through the fence of an earlier delivery changes nothing, however late it comes |
| DatasetArchive.MovedKept | apps/backend/dataset-service/src/services/datasetArchive.ts:44-163 | Every conditional update and delete keeps the record sane and what is gone gone |
| DatasetArchive.AdoptKept | apps/backend/dataset-service/src/services/datasetArchive.ts:152-159 | The archive an upload replaces is gone for good when it is adopted |
| DatasetEffects.RecordTurns | apps/backend/dataset-service/src/services/datasetArchive.ts:44-163 | Every step, field by field: the archive is replaced exactly by an adoption, the upload reserved, discarded, cleared or adopted exactly under its condition, the import queued, moved on by its own worker or stopped, scan and contents renewed, exactly as the record then allows |
| DatasetEffects.BytesTurn | apps/backend/dataset-service/src/services/datasetArchive.ts:76-84 | Bytes are deleted exactly by the request that claimed their discard or put another file in their place |
| DatasetEffects.UploadReplaces | apps/backend/dataset-service/src/services/datasetArchive.ts:44-163 | Undisturbed, on a dataset nobody holds or imports, a new upload becomes the archive with a scan queued and no contents, and exactly the bytes it replaces are deleted |
| DatasetEffects.ImportedAlone | apps/backend/dataset-service/src/services/importService.ts:264-305 | Undisturbed, an import of a dataset that has an archive and that nobody holds or imports is started, reported on and ended as its worker says, and nothing else of the record changes |
| DatasetEffects.ScannedAlone | apps/backend/dataset-service/src/services/scanService.ts:22-65 | Undisturbed, a scan that is queued brings the contents of its file |
| DatasetService.DatasetRecord.CreateUpload | apps/backend/dataset-service/src/services/datasetArchive.ts:44-86 | A reservation changes the record found only to name a file never used before; it is made exactly when the record read may be replaced, is not being resumed, and is still as it was read; the upload it abandons has been deleted |
| DatasetService.DatasetRecord.ReserveUpload | apps/backend/dataset-service/src/services/datasetArchive.ts:67-77 | Reserves exactly when the record is as it was read, live and neither held nor importing |
| DatasetService.DatasetRecord.AdoptPending | apps/backend/dataset-service/src/services/datasetArchive.ts:150-156 | Adopts exactly when the record is as it was read; the upload becomes the archive, to be scanned afresh |
| DatasetService.DatasetRecord.DiscardUpload | apps/backend/dataset-service/src/services/datasetArchive.ts:92-112 | The discarded file is deleted and is neither upload nor archive; its bytes are deleted whenever the record still has that upload and archive |
| DatasetService.DatasetRecord.CompleteUpload | apps/backend/dataset-service/src/services/datasetArchive.ts:138-163 | The record found becomes one whose archive is its upload, exactly when the bytes arrived and the record read may be replaced and is still as it was read; the archive it had is deleted and is never the archive again |
| DatasetService.DatasetRecord.StartImporting | apps/backend/dataset-service/src/services/datasetImport.ts:11-53 | A started import is queued and names the present archive; it is started exactly when the record read allows it and still does |
| DatasetService.DatasetRecord.ResumeImporting | apps/backend/dataset-service/src/services/datasetImport.ts:60-84 | The stopped import found is queued again under another delivery, nothing else changed, and the fence it had is outdated; exactly when the record read allows it and still does |
| Sessions.ExpirySlidesUnderCap | apps/backend/auth-service/src/services/sessionService.ts:173-184 | At all times the expiry is the last renewal plus the idle time, or the cap if that comes first |
| Sessions.AcceptedInTime | libs/backend-core/src/auth/session.ts:50-60 | A token is accepted only within 90 days of sign-in and 30 of the last renewal of its session |
| Sessions.RevokedForGood | apps/backend/auth-service/src/services/sessionService.ts:214-227 | No token of a revoked session is accepted again |
| Sessions.OldVersionsAreRefused | apps/backend/auth-service/src/middleware/authMiddleware.ts:88-92 | A token of a version older than the account had when the request arrived is never accepted |
| Sessions.OnlyContinuingCarries | apps/backend/auth-service/src/services/sessionService.ts:196-212 | Every token is of its session's first version or of one it was continued at alone |
| Sessions.RenewalKeepsVersion | apps/backend/auth-service/src/services/sessionService.ts:186-187 | Renewal hands out the version presented; only continuing, once the other sessions are ended, hands out another |
| Sessions.SessionTurns | apps/backend/auth-service/src/services/sessionService.ts:124-227 | Every step, session by session: there from its sign-in for 30 days under a cap of 90, slid exactly by a renewal five minutes or more after it was seen, gone exactly when ended or swept once expired, revoked exactly when ended |
| Sessions.AccountTurns | apps/backend/auth-service/src/controllers/authController.ts:205-218 | Every step, account by account: its version goes up by one exactly when its sessions are to be ended |
| Sessions.FindsToEnd | apps/backend/auth-service/src/services/sessionService.ts:221-227 | Those to be ended are all the user's sessions, or all but the one that goes on |
| Sessions.AcceptedExactly | apps/backend/auth-service/src/middleware/authMiddleware.ts:40-99 | Undisturbed, a token handed out is accepted exactly when it is of the account's version and of a session of its user that has not expired, and only the record of it changes |
| Sessions.RenewedAlone | apps/backend/auth-service/src/services/sessionService.ts:165-188 | Undisturbed, renewing hands the same token out again and slides the session exactly when it was seen five minutes ago or more |
| Sessions.SignedInAlone | apps/backend/auth-service/src/services/sessionService.ts:124-150 | Undisturbed, signing in opens a session and hands out a token that is current |
| Sessions.SignedOutForGood | apps/backend/auth-service/src/services/sessionService.ts:214-219 | A session signed out is gone, and no token of it is accepted from then on |
| Sessions.InvNext | apps/backend/auth-service/src/services/sessionService.ts:124-227 | Every call keeps expiries, caps, versions and revocations in order |
| SessionService.SessionStore.Authenticate | apps/backend/auth-service/src/middleware/authMiddleware.ts:40-99 | Accepts only a current account version and a live session; a token older than the account on arrival is refused; refuses only a token that on the way was not current |
| SessionService.SessionStore.Renew | apps/backend/auth-service/src/services/sessionService.ts:165-188 | Hands back a token of the same session and version; none only if on the way the token was not current |
| SessionService.SessionStore.Slide | apps/backend/auth-service/src/services/sessionService.ts:173-184 | A session due and still there is slid to the idle expiry under its cap; one seen within five minutes is left as it is |
| SessionService.SessionStore.EndOthers | apps/backend/auth-service/src/services/sessionService.ts:221-227 | The sessions found are deleted and cannot come back |
| SessionService.SessionStore.ChangePassword | apps/backend/auth-service/src/controllers/profileController.ts:113-158 | The session goes on at a newer version and none the user had elsewhere is left; refused only if on the way the token was not current |
| Ownership.FilterAgreesWithAccess | libs/backend-core/src/ownership/requestAccess.ts:13-27 | For every caller, resource and level from `read` to `own`, the filter keeps the resource exactly when access grants the level |
| Ownership.KeepsExactly | libs/backend-core/src/ownership/requestAccess.ts:18-26 | Which resources the filter keeps: public ones for `read`, the caller's own, and those of groups whose role grants the level |
| Ownership.FilterByNothing | libs/backend-core/src/ownership/requestAccess.ts:13-27 | For the level `none` the two disagree: the filter keeps only what the caller may contribute to |
| Ownership.FilterByNothingDisagrees | libs/backend-core/src/ownership/requestAccess.ts:13-27 | The disagreement on an input: signed out, a private resource, the level `none` |
| Ownership.DirectExactly | libs/backend-core/src/ownership/access.ts:15-25 | What everyone may do: anything for the owner and owners of the owning group, manage for its admins, contribute for its members, read for anyone else if public, nothing if not |
| Ownership.LevelsInOrder | libs/backend-core/src/ownership/types.ts:37-43 | Each level includes exactly the ones before it |
| Ownership.OwnershipAccess.Can | libs/backend-core/src/ownership/requestAccess.ts:75 | Whether the direct answer is at least the level asked for |
| Ownership.Granting | libs/backend-core/src/ownership/requestAccess.ts:22 | The groups whose role grants the level, all and only |
| Ownership.OwnershipAccess.MembershipIn | libs/backend-core/src/ownership/requestAccess.ts:59-67 | The remembered answer is the service's, which is asked at most once for each group |
| Ownership.OwnershipAccess.PermissionFor | libs/backend-core/src/ownership/requestAccess.ts:69-70 | The remembered permission equals the direct answer over any sequence of calls |
| Ownership.OwnershipAccess.Permissions | libs/backend-core/src/ownership/requestAccess.ts:29-36 | A list of rows gets the direct answers, each distinct group asked about once |
| Ownership.OwnershipAccess.Filter | libs/backend-core/src/ownership/requestAccess.ts:78 | The filter of a request agrees with its permissions |
| Ownership.TransferNeedsOwn | libs/backend-core/src/ownership/transfer.ts:20-41 | Whoever may transfer a resource resolves to `own` on it |
| Ownership.OwnersTransferExactly | libs/backend-core/src/ownership/transfer.ts:11-20 | Whoever resolves to `own` may transfer exactly to a group they are in or, from a group, to one of its members |
| Ownership.TransferStaysWithin | libs/backend-core/src/ownership/transfer.ts:36-45 | A transfer reaches only people and groups that could already contribute on one side of it |
| Ownership.ItemChangesNeedStanding | libs/backend-core/src/ownership/access.ts:32-35 | An item may be changed exactly by the owner, an owner or admin of the owning group, and the member of it who added it |

## Left out

- RunGuarantees.RunsInOrder: a run is created when its insert takes effect. In the code each replica stamps `createdAt` before its insert lands, so two replicas racing may order two runs otherwise than they were inserted.
- Worker.ChatDatabase.Execute: the aborting watch, building the prompt, API keys and prices are not modelled; whether each guard passed is a parameter, and a throw may come at any point of the machine.
- Worker.ChatDatabase.RecoverOutbox: says nothing of a full batch, whose remaining questions wait for the next one.
- Analyst.Analyze: the signal and the guards between calls are not parameters here; the machine's `Throw` covers them.
- Publishing of completed answers is modelled only as appends under a client id made from the question.
- `visibleRuns` and the other read projections are easy and left out.
- RunEffects.ClaimedAlone: the machine lets a worker start from any oldest part of the queue; that the list found is the whole of it when short is said by `FindQueued`.
- RefreshTokens.OlderNeverTouchesNewer: speaks of one step; that holds of any run of steps because it holds of each.
- Registration of OAuth clients, `listConnections` and access tokens.
- ConversationGuarantees.SeesFromAcceptance: rooms only. Direct chats, their reactivation and blocking, bot repair, groups and project channels are not modelled, nor is `deletedAt`, which no service sets.
- ConversationService.Conversations.SendMessage: whether an invoked assistant is available is not modelled; an outbox entry is the business of `Runs`.
- SharedAssistants.ChangeEndsAgreement: an assistant's availability and the clash of names are one parameter, and the order of ids in the audience is that of a set. The person is taken to be shown the cards that stand when the settings are loaded.
- Png.DecodeGrey: zlib is a pair of functions of which the second undoes the first, limits included; CRCs are written but, as in the code, never checked.
- Png.EncodeRgb: requires the sizes and the deflated rows to fit the 32-bit fields they are written to, where the code throws.
- DatasetArchive.LateOutcomesAreVoid: extraction, zip scanning, queue recovery and trash appear only as writes to the record; permanent deletion of a dataset is not part of this model.
- DatasetService.DatasetRecord.StartImporting: the mapping, and the refusal while an image group is being removed, are not modelled.
- Sessions.AcceptedInTime: the token's own expiry, the email claim and group roles are not modelled; the session document is the stricter bound.
- Ownership.OwnershipAccess.PermissionFor: the service's answers do not change within one request; failures of the service are not modelled.
- Frontends, HTTP handlers, rate limits, logging, licences, money reports and provider clients.

