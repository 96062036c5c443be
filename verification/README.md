# Proofs about WazzapAgent-Go

A Dafny model of the parts of WazzapAgent-Go whose behaviour is hard to see from one function, with
proofs of what those parts promise. `dafny verify dfyconfig.toml` checks all of it in a few minutes; every
proof also fits `--resource-limit 2000000`.

The project has three groups.

**The inbound queue.** `ClaimBatch` is the transaction that decides what one turn consumes;
`ClaimBatchProperties` says what it does to any batch, and `ClaimRepeats` what a message named twice does to it.
`QueueSteps` holds the critical sections of one chat's queue as functions; the classes of
`InboundDispatcher` are the objects that are updated in place, proved to do what those functions say.
`InboundProtocol` puts them together: any number of chats, queue objects that are created and
forgotten, timers that may fire after they were replaced, goroutines between critical sections, a
judge, commands, the durable inbox, and shutdown. `InboundSafety` proves the global invariant of all
interleavings, `InboundNoLoss` that no message is lost and which steps break that, and `InboundLosses` gives
two runs that lose one and one that gives up more than it has to.

**The outbox.** `Outbox` holds the tables and their transactions, as functions and as a class;
`Dispatchers` is one dispatch as the code runs it; `OutboxProtocol` is any number of agents, dispatchers
and redelivery sweeps at different program points, with crashes and the resolution of interrupted rows at
restart. `OutboxSafety` proves its invariant, `OutboxChanges` what one step can do to the tables and to a
call, and `OutboxResults` what follows for every run: sends, runs, outcomes and model calls. `OutboxPlans` is
about the one plan of a turn, `OutboxViews` and `OutboxStale` about the history beside the outbox, and
`OutboxDenials` about when a record of failure can be trusted. `AgentRuntime` and `RuntimeProtocol` do the same
for starting and stopping the bot against actions of the user interface.

**Algorithms.** Permission expressions (`Permission`, `PermissionGrammar`, `Registry`), mention tokens
(`Mention`), the model's context (`Context`, `ContextProperties`, `ContextBoundary`), WebP and GIF files
(`Riff`, `GifFrames`), dotenv documents (`DotEnv`, `DotEnvRoundTrip`), command notices (`Notices`) and quiz
choices (`Choices`). Where the code loops, a method with the same loop is proved equal to a function, and
the promise is proved about the function.

A step of a protocol is one critical section, one transaction, or one call to the outside. Timers, the
sender, the model, the judge, policy decisions and storage failures are nondeterministic or parameters.

## Findings

Each is a lemma, and next to it stands the exact condition under which the code does keep its promise.

- A message the judge admits while the queue is full is left in the inbox. If the queue is then drained and
  read again before the judge clears its burst, the read skips the message as one still to be judged, and
  nothing fetches it before a restart (`InboundLosses.JudgedMessageIsLost`,
  `InboundNoLoss.ReadLosesExactlyWhatItSkips`).
- Admission compares a message with the pending queue but not with the batch of the running turn. Admitted
  twice and last, a message is requeued twice, claimed twice by the retry and recorded as batched into itself;
  the next claim finds nothing to answer, and the message is lost
  (`InboundLosses.ReadmittedMessageIsLost`, `InboundNoLoss.ClaimLosesExactlyWhatItRepeats`,
  `ClaimRepeats.ClaimBatchesIntoItself`).
- Admitted twice with another message behind it, it makes the whole claim fail with a conflict, every time;
  when the retries run out the other message is given up with it, with a report
  (`InboundLosses.RepeatedMessageTakesAnotherAlong`, `ClaimRepeats.RepeatedMessageFailsClaim`,
  `ClaimRepeats.ClaimOfRepeats`).
- Claiming a batch again may hand back messages that were answered in between: the rest is the same exactly
  while the anchor is unstarted or nothing was consumed behind it
  (`ClaimBatchProperties.ReclaimOfStartedAnchorGrowsRest`, `ClaimBatchProperties.ClaimingAgainReturnsAnchor`).
- Retention removes settled history entries without the chat's gate. If it removes one that a replay is about
  to restore, and the replay has read the reply before it was settled, the reply is listed as unsent from then
  on. The entry has to be removable by then, that is, old enough or part of a history that was reset
  (`OutboxStale.SentReplyIsListedAsUnsent`, `OutboxViews.HistoryTellsTheTruth`, `OutboxViews.ViewsAgree`).
- A replay takes a plan's effects by identifier and the commit in the order the model asked for; the two are
  the same exactly when the identifiers are drawn in ascending order (`OutboxPlans.ReplayKeepsOrder`). UUIDs of
  version 7 from one process are meant to be, so this is a condition and not a failure.
- A failure may be written over an effect that another dispatcher has started, if it was denied on an older
  reading of the row. The effect is then recorded as never run although it ran
  (`OutboxDenials.FailedEffectMayHaveRun`, `OutboxDenials.StaleDenialIsFalse`).
- The search for a mention token slices past the end of the text when an at sign stands where the token has
  no room; `Mention.Contains` says exactly when.
- A WebP file whose header chunk is empty is indexed past its end (`Riff.EmptyHeaderExactly`,
  `Riff.EmptyHeaderFile`), and a lossy image of size zero gets a header with the largest size
  (`Riff.MeasuredAsDeclared`, `Riff.ZeroSizeIsMeasuredLargest`). The only caller, `finish` in
  internal/sticker/sticker.go:220, passes what an encoder wrote, so neither is shown to be a file the program
  receives.

## Model

| member | source | states |
|---|---|---|
| `InboundNoLoss.NothingIsLost` | internal/inbound/dispatcher.go:287-361 | in every reachable state of a live dispatcher, each admitted message nobody has answered is listed by the inbox and is queued, in the running turn, or left for a read that will come, or its failure was reported; a message batched into itself counts as unanswered; in runs without the two kinds of step named below |
| `InboundNoLoss.LostExactlyAtTheseSteps` | internal/inbound/dispatcher.go:287-594 | the guard is exact: an event after a guarded run breaks the no-loss property if and only if it is a read that skips a due message or a claim that batches a due message into itself |
| `InboundNoLoss.ReadLosesExactlyWhatItSkips` | internal/inbound/dispatcher.go:561-594 | the end of an inbox read loses a message if and only if it skips one that is due because a judge still holds it |
| `InboundNoLoss.ClaimLosesExactlyWhatItRepeats` | internal/inbound/dispatcher.go:526-546 | a claim loses a message if and only if the last message its turn takes is due and named twice by the batch, and nothing else stops the claim |
| `InboundNoLoss.OwedTwiceExactlyWhenReadmitted` | internal/inbound/dispatcher.go:330-361 | as long as nothing was admitted twice, an admission makes a chat owe a message twice if and only if it admits one the running turn holds: the check against `pending` alone does not see it |
| `InboundNoLoss.WithoutReadmissionNothingIsRepeated` | internal/inbound/dispatcher.go:330-361 | as long as nothing was admitted twice every claim is of distinct messages, and none batches a message into itself |
| `InboundNoLoss.WithoutJudgeNothingIsSkipped` | internal/inbound/dispatcher.go:561-594 | with the smart trigger off the first kind of loss cannot happen |
| `InboundNoLoss.ClaimedAnchorAwaitsReply` | internal/inbound/dispatcher.go:526-546 | after a claim in a guarded run a message of the batch that is neither the one the turn answers nor given back is no longer unanswered, and the one it answers still is, unless the claim batched it into itself |
| `InboundNoLoss.StepKeepsNoLoss` | internal/inbound/dispatcher.go:287-594 | a step from a state without a loss breaks the no-loss property exactly when it is one of the two kinds |
| `InboundNoLoss.PageHolds` | internal/inbound/dispatcher.go:598-610 | a page read from the inbox has no duplicates and holds every unfinished message of the chat unless it is full |
| `InboundNoLoss.EndOfRefillLoss` | internal/inbound/dispatcher.go:550-594 | the same equivalence for one critical section, over any queue and page |
| `InboundLosses.JudgedMessageIsLost` | internal/inbound/dispatcher.go:411-443 | a reachable run in which a message the judge admitted to a full queue is skipped by the read that should fetch it, and nothing is left that would pick it up |
| `InboundLosses.ReadmittedMessageIsLost` | internal/inbound/dispatcher.go:340-344 | a reachable run in which a message admitted twice is batched into itself: it is due, no turn answered it, nothing is left that would act, and the no-loss property fails |
| `InboundLosses.RepeatedMessageTakesAnotherAlong` | internal/inbound/dispatcher.go:340-344 | a reachable run in which a message admitted twice, with another behind it, makes every claim of both fail until both are given up, with a report |
| `InboundSafety.OneAtATimePerChat` | internal/inbound/dispatcher.go:460-477 | in every interleaving a chat runs at most one turn or read, one judgment and one command, although queue objects are dropped and created again |
| `InboundSafety.TimersActExactlyOnce` | internal/inbound/dispatcher.go:364-375 | a callback whose timer was replaced changes nothing; a live one always takes the batch; a forgotten object has no live timer |
| `InboundSafety.WaitingWorkIsPickedUp` | internal/inbound/dispatcher.go:345-361 | queued messages imply an armed timer or a running turn, and messages left in the inbox imply someone who will read it |
| `InboundSafety.MemoryIsBounded` | internal/inbound/dispatcher.go:472-504 | queued plus running messages never exceed maxPending + BurstCap, and consecutive retries never exceed maxGenerationRetries |
| `InboundSafety.StepKeepsInv` | internal/inbound/dispatcher.go:103-633 | the global invariant of queues, timers, goroutines and the chat map is inductive over all steps |
| `InboundDispatcher.ChatQueue.HoldsForJudge` | internal/inbound/dispatcher.go:109-118 | true exactly when the message waits for judgment or is under it |
| `InboundDispatcher.Dispatcher.Chat` | internal/inbound/dispatcher.go:613-621 | the mapped queue of the chat, created if missing; no other mapping changes |
| `InboundDispatcher.Dispatcher.ForgetIfIdle` | internal/inbound/dispatcher.go:624-628 | unmaps a queue exactly when it is idle and is the mapped one |
| `InboundDispatcher.Dispatcher.Schedule` | internal/inbound/dispatcher.go:364-375 | replaces the timer and makes the old one stale |
| `InboundDispatcher.Dispatcher.AdmitAI` | internal/inbound/dispatcher.go:337-361 | the critical section of admission refines the queue function the protocol steps use |
| `InboundDispatcher.Dispatcher.StartTurn` | internal/inbound/dispatcher.go:460-477 | the fired batch timer refines the same function: stale, nothing to do, or a batch taken |
| `InboundDispatcher.Dispatcher.EndTurn` | internal/inbound/dispatcher.go:482-519 | requeue, retry, refill or forget, as the protocol step |
| `InboundDispatcher.Dispatcher.EndRefill` | internal/inbound/dispatcher.go:561-594 | what a read adds to the queue and when it reads on, as the protocol step |
| `InboundDispatcher.Dispatcher.AwaitJudgment` | internal/inbound/dispatcher.go:378-389 | holds a message for the next judgment once |
| `InboundDispatcher.Dispatcher.StartJudgment` | internal/inbound/dispatcher.go:411-426 | takes the waiting burst unless the timer is stale or the dispatcher is closing |
| `InboundDispatcher.Dispatcher.EndJudgment` | internal/inbound/dispatcher.go:433-441 | clears the burst and reschedules what arrived meanwhile |
| `InboundDispatcher.Dispatcher.EnterCommand` | internal/inbound/dispatcher.go:287-290 | a command keeps its chat's queue object from being forgotten |
| `InboundDispatcher.Dispatcher.LeaveCommand` | internal/inbound/dispatcher.go:292-303 | the last user leaving lets an idle queue go and reads the inbox if messages were left there |
| `ClaimBatch.InboundStore.ClaimBatch` | internal/adapters/sqlite/batch.go:23-138 | the transaction equals the claim function of the inbox, and an error changes nothing |
| `ClaimBatch.ScanMembers` | internal/adapters/sqlite/batch.go:72-121 | the member loop computes the scan function |
| `ClaimBatch.RecordBatched` | internal/adapters/sqlite/batch.go:122-133 | the conditional updates mark every claimed message but the last, or fail |
| `ClaimBatch.InRowOrderSorts` | internal/adapters/sqlite/batch.go:51-71 | sorting keeps the multiset and orders by arrival |
| `ClaimBatchProperties.ClaimSplitsBatch` | internal/adapters/sqlite/batch.go:23-138 | on any batch of one chat: consumed prefix and untouched suffix in row order, the messages needing a reply claimed in order, a started turn only alone, all but the last batched, only pre-reset messages marked otherwise; refused only for a missing policy, or for a message named twice |
| `ClaimBatchProperties.ConsumedLeavesOnlyAnchor` | internal/adapters/sqlite/batch.go:73-137 | in the consumed prefix only the anchor still needs a reply |
| `ClaimBatchProperties.NothingUnansweredIsConsumed` | internal/adapters/sqlite/batch.go:73-137 | each message is given back, is the anchor, or needs no reply of its own after the commit |
| `ClaimBatchProperties.ClaimNeverGrows` | internal/adapters/sqlite/batch.go:73-137 | rest plus anchor is never more than the batch, duplicates or not: the size bound the queue relies on |
| `ClaimBatchProperties.ClaimKeepsDistinct` | internal/adapters/sqlite/batch.go:73-137 | no message is both claimed and given back, or given back twice |
| `ClaimBatchProperties.ClaimingAgainReturnsAnchor` | internal/adapters/sqlite/batch.go:23-138 | claiming the batch again before the anchor is answered returns the anchor alone and writes nothing; the rest is the same if and only if the anchor is unstarted or every message of the batch behind it was given back, and otherwise it only grows at its front |
| `ClaimBatchProperties.ReclaimOfStartedAnchorGrowsRest` | internal/adapters/sqlite/batch.go:87-101 | a concrete batch whose second claim hands back an answered message |
| `ClaimRepeats.AnchorSurvivesUnlessRepeated` | internal/adapters/sqlite/batch.go:122-137 | on any batch that is claimed, the anchor still needs its reply afterwards if and only if the last message of the turn occurs only once in the batch; otherwise it ends up marked as batched |
| `ClaimRepeats.ClaimOfRepeats` | internal/adapters/sqlite/batch.go:72-137 | for any batch of one chat, read off the batch: the claim fails with a conflict if and only if a message of the turn occurs three times, or twice with another of the turn behind it; it batches its anchor into itself if and only if only the last of the turn occurs twice; both only if every message of the turn has a policy row |
| `ClaimRepeats.ClaimBatchesIntoItself` | internal/adapters/sqlite/batch.go:122-133 | which message a claim batches into itself, as a condition on the batch and the rows, both directions, for every batch |
| `ClaimRepeats.RepeatedMessageFailsClaim` | internal/adapters/sqlite/batch.go:122-133 | the smallest batch whose claim a repeated message makes fail |
| `OutboxResults.RepliesAreSentAtMostOnce` | internal/action/action.go:142-206 | over every interleaving with crashes: no send for Pending and FailedTerminal, exactly one for Succeeded, at most one for Executing and Unknown |
| `OutboxViews.ViewsAgree` | internal/adapters/sqlite/action.go:160-222 | in every run the turn says what the outbox row says and an unsettled reply has its unsent entry; the history delivery of a reply agrees with its row if and only if no call has put the entry back with an outdated delivery; where it does not it says unsent |
| `OutboxViews.HistoryTellsTheTruth` | internal/adapters/sqlite/maintenance.go:79-105 | the history agrees in every run in which retention removes no entry that a call is about to restore from a reading older than the outcome |
| `OutboxViews.TrimmingUnderIsWrong` | internal/adapters/sqlite/maintenance.go:79-105 | the condition is needed: after such a removal the call may restore the entry at once, and then the history disagrees |
| `OutboxViews.GatedTrimIsHarmless` | internal/agent/history.go:132-140 | trimming that holds the chat's gate is never such a removal |
| `OutboxViews.StepAgrees` | internal/adapters/sqlite/action.go:160-222 | one step makes the history disagree exactly by restoring an entry late, and no step repairs it |
| `OutboxStale.SentReplyIsListedAsUnsent` | internal/adapters/sqlite/maintenance.go:79-105 | a reachable run that ends with a reply that was sent once and whose history entry says unsent |
| `OutboxResults.EffectsRunAtMostOnce` | internal/effect/effect.go:219-303 | an effect runs at most once, and a model effect only after its reply was sent or its turn was answered by effects alone |
| `OutboxResults.OutcomesAreFinal` | internal/adapters/sqlite/action.go:138-158 | a recorded outcome of a reply or effect never changes again; the row is there until retention, which the model leaves out, deletes it |
| `OutboxPlans.PlansAreWrittenOnce` | internal/adapters/sqlite/turn.go:153-334 | a turn gets one plan, it never changes, and from its commit on the tables hold exactly it: the same reply and no other, the same model effects and no others, each once |
| `OutboxPlans.CallsWorkOffThePlan` | internal/agent/agent.go:426-467 | what a call that answers a turn has dispatched and has yet to dispatch is the effects of the turn's one plan, each once, in the order of the commit if the identifiers were drawn in ascending order; it is at the plan's reply, or the reply has succeeded |
| `OutboxPlans.ReplayKeepsOrder` | internal/adapters/sqlite/turn.go:476-501 | a replay lists the effects in the order of the commit if and only if their identifiers were drawn in ascending order |
| `OutboxPlans.ListingExists` | internal/adapters/sqlite/turn.go:476-501 | the model effects of a turn always have one listing by identifier, so a replay is never stuck for one |
| `OutboxPlans.StepKeepsPlanInv` | internal/adapters/sqlite/turn.go:153-334 | the invariant that ties calls, plans and tables together is inductive over all steps |
| `OutboxResults.ModelIsCalledAtMostThreeTimes` | internal/adapters/sqlite/turn.go:19-151 | at most three model calls for a turn, whatever fails or crashes |
| `OutboxResults.ModelIsNotCalledAfterPlan` | internal/agent/agent.go:164-310 | once a turn has its plan no step calls the model for it |
| `OutboxResults.EffectsFollowInOrder` | internal/effect/effect.go:315-327 | everything a call has dispatched has succeeded, the effect it is at is the next one of its list, and it never reorders, skips or adds; which list that is, OutboxPlans.CallsWorkOffThePlan says |
| `OutboxResults.StepLasts` | internal/adapters/sqlite/action.go:34-222 | no single step takes back an outcome, a plan, or what a reply belongs to |
| `OutboxChanges.StepChanges` | internal/adapters/sqlite/action.go:34-222 | every step of every caller is one of seven kinds of change to the tables |
| `OutboxSafety.StepKeepsInv` | internal/adapters/sqlite/action.go:34-222 | the invariant over tables, counts and program points is inductive over all steps of all callers |
| `OutboxDenials.FailedEffectsNeverRan` | internal/effect/effect.go:219-303 | in runs without a stale denial of a started effect, a failed effect never ran and no call is about to run it |
| `OutboxDenials.StaleDenialIsFalse` | internal/adapters/sqlite/effect.go:251-267 | such a denial falsifies the record if and only if the effect has run or is being run |
| `OutboxDenials.FailedEffectMayHaveRun` | internal/adapters/sqlite/effect.go:242-267 | a reachable run that ends with an effect recorded as failed that ran once |
| `Outbox.Store.StartAction` | internal/adapters/sqlite/action.go:34-68 | claims a pending row, moving its turn along; otherwise a conflict and no change |
| `Outbox.Store.FinishAction` | internal/adapters/sqlite/action.go:138-189 | moves row, turn and history entry together, or changes nothing |
| `Outbox.Store.StartEffect` | internal/adapters/sqlite/effect.go:82-114 | starts a pending effect, one of the model only once its turn is answered; otherwise says why and changes nothing |
| `Outbox.Store.EndEffect` | internal/adapters/sqlite/effect.go:251-267 | the conditional outcome write |
| `Outbox.Store.ResolveInterrupted` | internal/adapters/sqlite/action.go:191-226 | whatever order the query lists them in, every executing row ends unknown with its turn and entry, and nothing else changes |
| `Outbox.Store.Claim` | internal/adapters/sqlite/turn.go:19-151 | the claim of a turn, case by case |
| `Outbox.Store.Publish` | internal/adapters/sqlite/turn.go:153-334 | commits the one plan, replays the same one, refuses another |
| `Outbox.Store.Fail` | internal/adapters/sqlite/turn.go:503-521 | a failed generation is retryable or final, from Generating only |
| `Outbox.ResolvesOneMore` | internal/adapters/sqlite/action.go:191-226 | resolving one more interrupted reply extends the set of resolved ones by exactly it |
| `Dispatchers.ReplyDispatcher.Dispatch` | internal/action/action.go:142-206 | one dispatch of a reply, as a function of what the outside does |
| `Dispatchers.DispatchOutcome` | internal/action/action.go:142-206 | it sends exactly when the reply was pending, allowed and connected; no error implies succeeded; a dispatch that sent leaves a row that is no longer pending |
| `Dispatchers.DispatchingAgainSendsNothing` | internal/action/action.go:152-202 | a second dispatch after one that sent sends nothing, whatever happens then |
| `Dispatchers.EffectDispatcher.Dispatch` | internal/effect/effect.go:219-303 | one dispatch of an effect, as a function of what the outside does |
| `Dispatchers.EffectDispatcher.DispatchAll` | internal/effect/effect.go:315-327 | the ordered batch, stopping at the first error |
| `Dispatchers.BatchStopsAtFirstError` | internal/effect/effect.go:315-327 | exactly the effects the batch got through have succeeded and nothing after the first error was touched |
| `PermissionGrammar.TreeIsUnique` | internal/policy/permission.go:155-225 | the tokens parse if and only if some tree of the grammar with known atoms is written that way, and the parser finds that tree |
| `PermissionGrammar.EvaluationIsTheTreesValue` | internal/policy/permission.go:51-65 | evaluation gives the value of the one tree the text spells, and errs exactly when there is none, for all facts alike |
| `PermissionGrammar.FormulasEvaluate` | internal/policy/permission.go:51-132 | any formula written with the fewest parentheses evaluates to its value: `!` over `and` over `or` |
| `PermissionGrammar.TokensEndOnce` | internal/policy/permission.go:77-124 | a token list ends with its only End |
| `Permission.Tokenize` | internal/policy/permission.go:77-124 | the tokenizer loop computes the token function, bad bytes included |
| `Permission.Parser.EvalOr` | internal/policy/permission.go:155-169 | the parse method advances as the grammar function and gives the subtree's value |
| `Permission.Parser.EvalAnd` | internal/policy/permission.go:171-185 | the same for conjunctions |
| `Permission.Parser.EvalUnary` | internal/policy/permission.go:187-197 | the same for negations |
| `Permission.Parser.EvalPrimary` | internal/policy/permission.go:199-225 | the same for atoms and parentheses |
| `Permission.Evaluate` | internal/policy/permission.go:51-65 | the value, or no answer |
| `Permission.Validate` | internal/policy/permission.go:70-75 | accepts exactly the texts that evaluate |
| `Registry.NewRegistry` | internal/command/registry.go:34-65 | the loop computes the registry, or refuses |
| `Registry.RegisteredCommandsNeverErr` | internal/command/registry.go:70-93 | a recognized message names a registered command, and asking whether its sender may run it has an answer for all facts |
| `Registry.BuiltExactlyWhenTokensAreFree` | internal/command/registry.go:34-65 | building succeeds if and only if every command is acceptable and no two names or aliases collide after trimming and folding |
| `Registry.ClaimedTokens` | internal/command/registry.go:48-60 | claiming succeeds exactly on valid, free and distinct tokens, and gives them this owner |
| `Registry.Allows` | internal/command/registry.go:83-93 | the permission of the command, evaluated |
| `Mention.Contains` | internal/mention/token.go:34-52 | finds a complete token if and only if there is one, and slices past the end exactly when the text has a late at sign but no room for the token |
| `Mention.ContainsMayRunPastTheEnd` | internal/mention/token.go:45 | a concrete text on which the slice runs past the end |
| `Mention.Rewrite` | internal/mention/token.go:55-107 | the rewriting loop equals the left-to-right specification, whatever order the tokens are tried in |
| `Mention.RewriteListed` | internal/mention/token.go:68-107 | the same for the valid tokens in any listing |
| `Mention.OneTokenMatches` | internal/mention/token.go:76-98 | at most one token is complete at a position |
| `Mention.EveryMentionIsReplaced` | internal/mention/token.go:72-107 | each complete mention is replaced by its binding, independently of all others |
| `Mention.WithoutMentionNothingChanges` | internal/mention/token.go:34-107 | with one binding the text is unchanged exactly where Contains finds nothing |
| `Mention.FirstMentionIsReplaced` | internal/mention/token.go:34-107 | otherwise its first complete mention is replaced and what stands before it is copied |
| `Context.Build` | internal/agent/context.go:112-235 | the trimming loop computes the trimmed message list or the same error |
| `Context.Validate` | internal/agent/context.go:577-661 | accepts exactly the lists of the acceptability predicate |
| `Context.ModelMessagesBytes` | internal/agent/context.go:531-543 | the sum of the sizes |
| `ContextProperties.BuildKeepsTheNewest` | internal/agent/context.go:159-235 | the result is the visible history minus its k oldest whole invocations, none dropped in vain, still ending with the current entry; too large only if that entry alone does not fit |
| `ContextProperties.TrimmingDropsOldest` | internal/agent/context.go:191-235 | the same for the trimming loop from any point of it |
| `ContextProperties.DroppedKeepsRest` | internal/agent/context.go:220-233 | dropping k invocations keeps exactly the entries of the others |
| `ContextProperties.DroppedKeepsOrder` | internal/agent/context.go:220-233 | what is kept stands in the order it had: trimming drops entries and moves none |
| `ContextProperties.OrderCovers` | internal/agent/context.go:220-233 | every invocation has its place in first-appearance order, once |
| `ContextProperties.TrimmingAlwaysProgresses` | internal/agent/context.go:223-232 | the "no progress" error is unreachable |
| `ContextProperties.AloneIsSmallest` | internal/agent/context.go:214-219 | no kept history is smaller than its last entry alone |
| `ContextProperties.BuiltIsAcceptable` | internal/agent/context.go:112-235 | every list Build returns is accepted by ValidateModelMessages |
| `ContextProperties.SectionsKeepOrder` | internal/agent/context.go:193-207 | older and burst sections concatenate to the kept entries, and no reply is in the burst |
| `ContextBoundary.OnlyTheBoundaryIsTagged` | internal/agent/context.go:237-242 | the wrapped transcript has exactly one opening and one closing tag, whatever the entries say |
| `ContextBoundary.EscapedSize` | internal/agent/context.go:237-242 | each defused tag costs six bytes and nothing else changes in size |
| `Riff.RiffChunks` | internal/sticker/metadata.go:81-98 | the parse loop computes the chunk list or refuses |
| `Riff.PrintedIsParsed` | internal/sticker/metadata.go:81-98 | a printed file is read back chunk for chunk |
| `Riff.WithMetadata` | internal/sticker/metadata.go:14-74 | the writer as a function of the file |
| `Riff.EmptyHeaderExactly` | internal/sticker/metadata.go:57-60 | the writer indexes an empty header if and only if the file is a parsable WebP file whose first chunk that is not EXIF is an empty VP8X chunk |
| `Riff.EmptyHeaderFile` | internal/sticker/metadata.go:57-60 | the twenty bytes of the shortest such file |
| `Riff.WrittenIsReadBack` | internal/sticker/metadata.go:14-74 | the written file holds the non-EXIF chunks in order, with only the VP8X bit changed or one VP8X chunk added, then exactly one EXIF chunk |
| `Riff.RepeatingIsIdentity` | internal/sticker/metadata.go:14-74 | writing the same payload again gives the same bytes |
| `Riff.SizeFieldIsExact` | internal/sticker/metadata.go:62-73 | the RIFF size field is the length minus 8 |
| `Riff.HeaderSizeReadsBack` | internal/sticker/metadata.go:102-136 | width and height survive the 24-bit header, except a lossy size of zero, which reads as the largest |
| `Riff.MeasuredSize` | internal/sticker/limits.go:23-69 | what a simple image is measured at once it has its metadata, whatever it declared and whatever chunks follow |
| `Riff.MeasuredAsDeclared` | internal/sticker/limits.go:23-69 | a simple image that gets its metadata is measured at exactly the size it declared if and only if no later usable VP8X chunk says otherwise and neither side was declared as zero |
| `Riff.ZeroSizeIsMeasuredLargest` | internal/sticker/limits.go:23-69 | a concrete file that declares no size and is measured at the largest |
| `Riff.CheckDecodedSize` | internal/sticker/limits.go:23-69 | the WebP size check computes width, height and frames from the chunks |
| `GifFrames.CountGIFFrames` | internal/sticker/limits.go:73-119 | the nested loops compute the block walk |
| `GifFrames.EveryImageIsCounted` | internal/sticker/limits.go:71-119 | a well-formed stream counts one frame per image, whatever its tables, extensions and image data |
| `GifFrames.TruncationAddsNoFrames` | internal/sticker/limits.go:71-119 | cutting off any data, well-formed or not, never adds a frame |
| `DotEnvRoundTrip.SerializedIsParsed` | internal/config/dotenv_export.go:22-53 | parsing a serialized map gives exactly its exported part |
| `DotEnvRoundTrip.EntryIsRead` | internal/config/dotenv.go:92-125 | one written entry reads as its key and value |
| `DotEnvRoundTrip.KeyIsNoExport` | internal/config/dotenv.go:127-136 | a key that starts with "export" is not taken for the keyword |
| `DotEnv.UnescapesWhatWasEscaped` | internal/config/dotenv.go:175-204 | unescaping inverts escaping |
| `DotEnv.Serialize` | internal/config/dotenv_export.go:22-53 | the loops write the document of the exported keys in order, or refuse |
| `DotEnv.ExportedKeys` | internal/config/dotenv_export.go:23-36 | the keys the options let through, in order |
| `DotEnv.Quote` | internal/config/dotenv_export.go:82-112 | the quoting loop |
| `DotEnv.Parse` | internal/config/dotenv.go:92-125 | the parse loop computes the document function |
| `DotEnv.Unescape` | internal/config/dotenv.go:175-204 | the unescaping loop |
| `Notices.PairUpdates` | internal/command/notice.go:138-156 | in place and in whatever order the kinds come: the k-th addition of a kind becomes an update and the k-th removal goes, for k below the smaller count |
| `Notices.CollectPlaces` | internal/command/notice.go:139-148 | both index maps list each kind's places in order |
| `Notices.NoKindKeepsBoth` | internal/command/notice.go:138-156 | after pairing no kind is both added and removed |
| `Notices.PlaceHasRank` | internal/command/notice.go:139-148 | the k-th place of a kind has k places before it |
| `Notices.GroupsAreGrouped` | internal/command/notice.go:103-119 | every surviving notice is listed once, under its heading, headings in first-appearance order |
| `Notices.KeysAreDistinct` | internal/command/notice.go:111 | two headings never share a map key |
| `Notices.GroupAll` | internal/command/notice.go:103-119 | the grouping loop with its map computes the groups |
| `Notices.Text` | internal/command/notice.go:75-133 | the message lists the groups, then the plain texts |
| `Choices.SplitUndoesWith` | internal/action/reply_extras.go:17-63 | whenever two choices survive cleaning, splitting returns the right-trimmed text and exactly the cleaned choices |
| `Choices.CleaningIsIdempotent` | internal/action/reply_extras.go:19-41 | cleaning a choice twice changes nothing more |
| `Choices.CleaningAllIsIdempotent` | internal/action/reply_extras.go:19-41 | nor does cleaning a list twice |
| `Choices.CleanedAreChoices` | internal/action/reply_extras.go:19-41 | cleaned choices are distinct, at most five, at most twenty characters and free of bars |
| `Choices.WithChoices` | internal/action/reply_extras.go:19-41 | the writing loop |
| `Choices.SplitChoices` | internal/action/reply_extras.go:44-63 | the reading loop |
| `RuntimeProtocol.NoActionWhileClosing` | internal/control/chat_actions.go:125-149 | in every interleaving no chat action is admitted or inside its callback while a stop closes the runtime |
| `RuntimeProtocol.AdmittedToLiveRunOnly` | internal/control/chat_actions.go:125-149 | an action is only admitted to the run that is running |
| `RuntimeProtocol.ActiveRevisionIsTheRunningOne` | internal/control/agent_runtime.go:309-383 | a non-zero active revision means running with that run's revision |
| `RuntimeProtocol.OneRunAtATime` | internal/control/agent_runtime.go:293-360 | never two unfinished runs, and one operation at a time |
| `RuntimeProtocol.DetachedRunsStayDown` | internal/control/agent_runtime.go:402-454 | a run marked stopping never runs again |
| `AgentRuntime.AgentController.Install` | internal/control/agent_runtime.go:309-329 | the critical section that installs a run |
| `AgentRuntime.AgentController.MarkStarted` | internal/control/agent_runtime.go:339-346 | the critical section that reports a start, if the run is still the starting one |
| `AgentRuntime.AgentController.RunEnded` | internal/control/agent_runtime.go:362-383 | the critical section that records how a run ended |
| `AgentRuntime.AgentController.DetachRunLocked` | internal/control/agent_runtime.go:411-423 | the critical section that marks a run stopping |
| `AgentRuntime.AgentController.CloseLocked` | internal/control/agent_runtime.go:250-253 | closing forbids later launches |
| `AgentRuntime.AgentController.Admit` | internal/control/chat_actions.go:125-149 | an action sees the running run or none |

## Left out

- Durations: which timer is armed is modelled, how long it runs is not.
- The 64-bit timer sequence numbers do not wrap around in the model.
- Goroutine panics, contexts and deadlines, except the one that ends the dispatcher's life.
- Inbox listing, history storage and the binding of sessions are taken by their contracts; of a history entry only its chat and delivery are kept, not its text, quote or sequence number.
- Refreshed policy flags of a message at claim time: only whether its policy row exists.
- Configuration versions; whether a received message matches the invocation that claims it is a parameter of `Outbox.Store.Claim`.
- OutboxResults.OutcomesAreFinal: retention of finished turns, which takes their replies along, and of finished effects (internal/adapters/sqlite/maintenance.go:31-66) is not modelled, so what is kept is kept until the row is deleted.
- OutboxPlans.PlansAreWrittenOnce: likewise, a plan is held until retention deletes its turn and its effects.
- OutboxViews.ViewsAgree: the age that makes a history entry removable is not modelled; any settled entry may be removed at any time.
- OutboxPlans.ReplayKeepsOrder: that identifiers drawn one after another ascend is the promise of a library; here it is a condition.
- Storage errors are failing steps without effect; a commit that succeeds and still reports an error is modelled where an outcome is completed, not elsewhere.
- Receipts, timestamps, observers, logging and metrics.
- Validation of single fields, settings and DTO mapping.
- ContextProperties.BuildKeepsTheNewest: how an entry, the chat's facts and its state are rendered is given, so nothing is said about their text.
- Registry.BuiltExactlyWhenTokensAreFree: Unicode case folding is a parameter.
- Mention.Rewrite: which non-ASCII characters belong to a word is a parameter; the sort by length is left out, because the result is proved for every order.
- Invalid UTF-8 in the texts of the context, dotenv, notice and choice modules, whose texts are decoded characters; permission expressions do have bad bytes.
- Riff.WithMetadata: the EXIF payload (sticker pack JSON, a random identifier) is given as bytes.
- Riff.CheckDecodedSize: what another decoder reports for the size of a lossy or lossless image is a parameter.
- Notices.Text: the batch's mutex; a batch is the list of what was reported.
- InboundLosses.JudgedMessageIsLost: the run uses a queue limit of 2, which the program keeps in a variable.
- FirstCodeBlock, formatting of single context lines, mention names and time zones.
- Looking up and reading dotenv files, backups and file permissions.
- Scheduled tasks, session pairing, migrations and the text heuristics against spoofed tags: library-bound, shallow or without a stated guarantee.
- Clients of WhatsApp, the model provider and tracing, HTTP and the desktop shell.
