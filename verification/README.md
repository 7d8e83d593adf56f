# Xyberos: a verified model

Xyberos is a Python application framework: a dependency-injecting runtime with scoped ownership, AI
calls with schema-checked tools, durable workflows with leases, a SQLite layer and layered settings. Its
support-desk example is a ticket service on top. This project models the parts of it whose logic is
hardest to get right and proves what they promise, for all inputs, all runs and all interleavings.

| file | what it models |
|---|---|
| `Providers.dfy` | registry validation: a depth-first pass that accepts exactly the well-formed graphs |
| `Ownership.dfy` | slots, caches and the ownership lists they fill, with the ownership order |
| `Resolution.dfy` | tasks resolving concurrently under per-contract locks, as a step relation whose steps are the stretches between two awaits |
| `Completion.dfy` | how many steps a resolution has left, and that outstanding ones end |
| `Lifecycle.dfy` | start, stop and request contexts interleaving, with every tracked resource accounted for |
| `Phases.dfy` | the phases an application goes through, and what keeps a context active |
| `Construction.dfy` | what resolving a contract yields, as a function of the caches and the factories, and how caches and the log of factory calls grow |
| `Application.dfy` | the same application as a class: recursive resolution, the pop-and-close loop, start and stop |
| `JsonSchema.dfy` | the closed schema subset: its checker, its validator, and what a schema means |
| `Enumerations.dfy` | what an enumeration admits against what it lists, and exactly when the two agree |
| `Tools.dfy` | the tool set: allowlist, argument checks, results and the audit events |
| `Facade.dfy` | one chat call, the structured call, and the bounded model-tool loop against any provider |
| `Text.dfy` | white-space normalisation and the check every stored text goes through |
| `SupportDesk.dfy` | tickets, drafts, audit rows and the outbox; each operation one transaction |
| `Visibility.dfy` | whose tickets a call can touch or learn of |
| `Usage.dfy` | recorded calls, prices, the grouped summary and the totals |
| `Recovery.dfy` | the recovery pass over expired leases, against a journal that fails at any write |
| `Leases.dfy` | any number of workers taking turns at one execution under fenced leases |
| `Transactions.dfy` | commit-or-rollback and the bounded retry loop |
| `Journal.dfy` | forward-only schema migrations of the journal file |
| `Settings.dfy` | the recursive merge of configuration layers |
| `Environment.dfy` | the tables spelled out by environment variables, and the named sections |
| `Explain.dfy` | the bounded dependency walk behind `check --why` |

Where the source keeps state and changes it in place, the model is a class with the same fields and its
methods carry loops where the source has them. Providers, handlers, factories, reconcilers, JSON parsing
and failures of the outside world are functions of everything that was asked of them before, or scripts
of what will go wrong, so a theorem about all such functions is a theorem about all behaviours.

## What the proofs turned up

These follow the code where it differs from its own promise. Each has a lemma.

- A request context whose `close()` is still running in another task when its block is left no longer
  counts as active, because `close()` returns at once to the second caller. A stop may then close
  app-owned resources before that context has finished. This is the only way without a timeout:
  `Lifecycle.ContextsCloseBeforeTheApp`, `Lifecycle.OvertakenContextOutlivesTheApp`.
- A resolution outstanding when a stop ends, or a context still open when it ran into its timeout, can
  track a resource for the application that nobody will ever close; and a task that kept a finished
  request context can track one there as long as the application is ready. The exact conditions:
  `Lifecycle.CleanForeverExactly`, `Lifecycle.StopLeavesNothingExactly`; runs:
  `Lifecycle.OutstandingResolutionLeaks`, `Lifecycle.ContextOpenPastTimeoutLeaks`,
  `Lifecycle.ClosedContextLeaks`. A cancelled stop leaves the application stopping for ever:
  `Lifecycle.AbortedStopNeverCloses`.
- Caches are cleared while resolutions may still be outstanding, and two callers of one contract may
  then get different instances: `Resolution.ClearedSlotIsBuiltAgain`. Without a clear in between they
  never do: `Resolution.CallsAgreeUnlessCleared`.
- The enumeration check keeps booleans and numbers apart only at the top of a value, so it admits
  `[true]` where `[1]` is listed: `Enumerations.EnumEqualityIsLooser`, `Enumerations.EnumAdmitsAnUnlistedArray`.
  Where it matters for a payload: `Enumerations.StandardButForEnums`; exactly which enumerations it does not
  matter for: `Enumerations.LoneEnumIsStandardExactly`.
- A structured call refuses the payload `null` even where its schema describes it, and returns a payload
  unchecked if an adapter sets one on a response that also asks for tools:
  `Facade.NullIsTheOnlyPayloadLost`, `Facade.StructuredPayloads`.
- A recovery pass resumes at most one execution. A resumed execution is at once the oldest one to claim,
  so if the list of expired leases goes on, the pass claims the same execution again and stops, leaving
  it running under recovery's own lease: `Recovery.JournalStore.Recover`, `Recovery.ResumedComesNext`. An
  execution with two interrupted attempts is half recorded: `Recovery.TwoInterruptedAttempts`.
- Recording a transition's own name with `record_event` makes the audit trail disagree with its ticket,
  and no other name does: `SupportDesk.TicketService.RecordEvent`.
- Grouped and row-by-row cost agree on every log only if every price is a whole number of millionths of a
  dollar per token, as the shipped prices are: `Usage.WaysAgreeExactly`.
- A journal's version is read in one transaction and written in another, so an older package can set back
  a version that a newer one wrote in between: `Journal.OlderPackageSetsBack`, and exactly when in
  `Journal.JournalFile.Migrate`. A migration that fails for any
  reason but a newer file leaves the database open: `Journal.JournalFile.Start`.
- Merging layers is not associative: `Settings.NotAssociative`, with the exact condition in
  `Settings.AssociativeExactly`.
- An environment with one name above another either loses a setting or is refused, depending on order:
  `Environment.OrderDecides`. Sections whose names differ only in case replace each other instead of
  being merged: `Environment.SectionIsFound`.

## Model

| member | source | states |
|---|---|---|
| Providers.Validate | src/xyberos/runtime/dependencies.py:159-207 | validation succeeds exactly for graphs that are registered, scope-safe and acyclic; it returns every provider once, after all it needs; a failure names a real path that ends in the fault |
| Providers.Validation.Visit | src/xyberos/runtime/dependencies.py:165-203 | one visit either settles a contract with all below it in dependency order or fails with a genuine fault |
| Providers.ChainLowersRank | src/xyberos/runtime/dependencies.py:165-203 | along any dependency path the position in the returned plan drops by at least one per edge |
| Providers.PlanMeansAcyclic | src/xyberos/runtime/dependencies.py:165-203 | a plan in dependency order exists only for a registered acyclic graph |
| Ownership.DependenciesFirst | src/xyberos/app.py:408-412 | what a cached slot needs, through any providers, was cached before it |
| Ownership.OwnershipOrder | src/xyberos/app.py:469-479 | in one owner's list a dependency, direct or through untracked and transient providers, stands before its dependent |
| Ownership.TrackedExtend | src/xyberos/app.py:428-431 | filling a slot adds one entry at the end of its owner's list if it needs cleanup, and nothing else |
| Resolution.StepKeeps | src/xyberos/app.py:394-445 | every step of every task, and every clearing of an owner's instances, keeps the invariant that ties locks, stacks, caches and ownership lists together |
| Resolution.EveryStateIsGood | src/xyberos/app.py:394-445 | the invariant holds in every state of every interleaving |
| Resolution.CachedForGood | src/xyberos/app.py:400-412 | a cached instance is never replaced, and dropped only by a clear of its owner |
| Resolution.SingleConstruction | src/xyberos/app.py:400-431 | as long as nothing its instance rests on is cleared, all callers that ever return for one slot return the same instance, the cached one, and the slot is filled once over the whole run |
| Resolution.CallsAgreeUnlessCleared | src/xyberos/app.py:400-431 | in every run, two calls for one slot, of callers or from argument lists, get the same instance unless the owner's instances are cleared in between |
| Resolution.ClearedSlotIsBuiltAgain | src/xyberos/app.py:302 | a concrete run in which a clear in between gives two callers different instances |
| Resolution.ClearKeeps | src/xyberos/app.py:65 | clearing one owner's instances takes nothing from the others, and keeps all locks, stacks and their order |
| Resolution.FailureLeavesTheSlotToTheNextWaiter | src/xyberos/app.py:433-455 | a failed resolution caches nothing and frees every lock it held, and a task queued on one can take it and build |
| Resolution.WaitsBelowWhatItHolds | src/xyberos/app.py:403-408 | a waiting task wants a contract of strictly lower rank than any slot it holds, so never a lock it already has |
| Resolution.Unblock | src/xyberos/app.py:403-408 | from any blocked task, following lock holders leads to one that can step |
| Resolution.NoDeadlock | src/xyberos/app.py:394-445 | in every reachable state with a resolution under way, some task can go on without new calls or failures |
| Resolution.DependenciesAreOwnedFirst | src/xyberos/app.py:408-412 | in every reachable state the ownership list of an owner not cleared has dependencies before their dependents |
| Completion.StepLowersWork | src/xyberos/app.py:394-455 | every step a task takes lowers a measure of what it has left, and no other task's |
| Completion.CallsAreShort | src/xyberos/app.py:369-455 | in every run, whatever other tasks do and whatever is cleared meanwhile, a call takes no more steps of its own than a number that only the graph below its contract decides |
| Completion.OutstandingIsBounded | src/xyberos/app.py:394-455 | once no new call begins, the number of further steps of all tasks is bounded, in whatever order they are taken and whatever fails or is cleared |
| Completion.OutstandingCallsEnd | src/xyberos/app.py:394-455 | from every reachable state, going on without new calls and failures leads to one in which every call has ended |
| Completion.StuckMeansDone | src/xyberos/app.py:394-455 | where no task can go on, none is under way, and conversely |
| Completion.RefusedAtOnceWhen | src/xyberos/app.py:376-392 | a call is refused at once exactly for an unregistered contract, or for a request's provider outside any request |
| Completion.RefusedBelowWhen | src/xyberos/app.py:376-392 | in a validated graph one is refused further down only where a transient provider that needs a request's one was asked for outside any request |
| Lifecycle.StepKeeps | src/xyberos/app.py:243-333 | every step of starting, stopping, entering, leaving, resolving and closing keeps the accounts |
| Lifecycle.ClosedExactlyOnce | src/xyberos/app.py:469-479 | no tracked resource is closed twice, and once its owner's closing is over it has been closed exactly once unless tracked after that |
| Lifecycle.LastTrackedIsClosedFirst | src/xyberos/app.py:473-474 | of two resources of one owner the later one is closed first, if it was tracked before the earlier one's close |
| Lifecycle.ContextsCloseBeforeTheApp | src/xyberos/app.py:284-333 | the drain event is set exactly when no context is active; without a timeout, whenever an app-owned resource is closed by a stop every context has finished closing, save those whose block was left while a close called elsewhere was running |
| Lifecycle.OvertakenContextOutlivesTheApp | src/xyberos/app.py:284-333 | a concrete run without timeout in which an app-owned resource is closed before a context's own |
| Lifecycle.CleanForeverExactly | src/xyberos/app.py:341-346 | an owner whose closing is over has nothing unclosed in any continuation exactly when it has nothing now and, for a context, no call is under way for it and the application is not ready; for the application, no call is under way and no context open |
| Lifecycle.StopLeavesNothingExactly | src/xyberos/app.py:301-303 | after a stop the application is clean for ever exactly when no resolution was outstanding and no context open; after a drained one, exactly when no resolution was outstanding |
| Lifecycle.LeftForEver | src/xyberos/app.py:469-479 | what an owner has when its closing is over is never closed in any continuation |
| Lifecycle.OutstandingResolutionLeaks | src/xyberos/app.py:341-346 | a concrete run after whose stop, with nothing outstanding any more, a resource of the application is left that no continuation closes |
| Lifecycle.ContextOpenPastTimeoutLeaks | src/xyberos/app.py:292-305 | a concrete run in which a context open past the timeout leaves such a resource |
| Lifecycle.ClosedContextLeaks | src/xyberos/app.py:341-346 | a concrete run in which a task resolves into a finished context and leaves a resource there that no continuation closes |
| Lifecycle.AbortedStopNeverCloses | src/xyberos/app.py:284-305 | after an exception leaves a stop before its closing loop, nothing app-owned is ever closed and no stop can run again |
| Phases.StagesOnlyRise | src/xyberos/app.py:243-305 | no phase of an application's life comes back: it is started at most once, and not after it was stopped |
| Phases.StoppedForGood | src/xyberos/app.py:269-305 | a stop that ends, or finds nothing running, is for good |
| Phases.ReadyUntilStopped | src/xyberos/app.py:243-267 | a start that ends leaves the application ready until a stop begins |
| Phases.FailedStartIsNeverReady | src/xyberos/app.py:258-266 | one that fails closes what it tracked and ends as failed, never ready |
| Phases.ValidatedSince | src/xyberos/app.py:139-144 | a validation stands until something is registered or a start begins |
| Phases.ActiveWhileInside | src/xyberos/app.py:306-333 | a context counts as active for as long as its block is not left, whoever closes it meanwhile, and no stop counts it as drained |
| Application.App.CloseOwned | src/xyberos/app.py:469-479 | the loop empties the list, closes its entries in reverse order whatever raises, and reports exactly the failing ones in that order |
| Application.App.Resolve | src/xyberos/app.py:369-392 | returns exactly what the contract means on the caches at the call: the cached instance, or the factory's product on what its dependencies mean, or the first error; every slot on the way is built at most once and cached if and only if built; what is returned, and all that is cached, was made by a call in the log whose factory made just that, of the contract's type, and for a transient is no resource anyone would have to close; the ownership lists keep dependency order; on failure the contract's own slot stays empty |
| Application.App.ResolveAppProvider | src/xyberos/app.py:394-412 | the cached instance, or a construction, of which exactly one succeeds for the slot; either was made, valid, by a call in the log; tracked if and only if it needs cleanup |
| Application.App.ResolveRequestProvider | src/xyberos/app.py:414-431 | the same within one request context |
| Application.App.CreateInstance | src/xyberos/app.py:433-467 | once the dependencies are resolved, the factory is called on them, last in the log: an instance of another type, or a managed one of a transient provider, ends in the error for that and is closed at once, and any other is returned |
| Application.App.Arguments | src/xyberos/app.py:439-445 | yields what the dependencies mean, in declaration order, or the error of the first that fails |
| Application.App.Start | src/xyberos/app.py:243-267 | succeeds exactly when every eager provider's meaning is an instance and the plugins start, with every eager provider cached; harmless when ready; on failure the state is failed, the caches are emptied, and what is closed, dependents first, is everything held when it failed: caches grown from those at the call by the factory calls made since, with the ownership list that belongs to them; a shutdown error is raised exactly when a close raises |
| Construction.WantedStays | src/xyberos/app.py:400-412 | what a contract yields does not depend on how much of it has been cached already |
| Construction.GrowsByOne | src/xyberos/app.py:408-412 | a finished construction adds one slot and one successful factory call for it, and for no other |
| Construction.GrowsTwice | src/xyberos/app.py:439-445 | growth of caches and calls composes |
| Construction.BuiltAtMostOnce | src/xyberos/app.py:400-431 | from empty caches on, a slot has one successful factory call if it is cached and none otherwise |
| Construction.ProductIsHanded | src/xyberos/app.py:456-467 | a call hands out exactly what its factory made, if that is of the contract's type and, for a transient, nothing anyone would have to close; what is refused is what it made otherwise |
| Construction.FirstErrorStays | src/xyberos/app.py:439-445 | the first failing dependency's error is that of the whole argument list |
| Construction.PathsDoNotMatter | src/xyberos/app.py:376 | the path a contract is asked for along bears on its errors only |
| Application.App.Stop | src/xyberos/app.py:269-305 | closes everything tracked in reverse, empties the cache, stops; reports failures if and only if there were any; a second stop does nothing |
| Application.App.CloseContext | src/xyberos/app.py:59-67 | closing a context twice closes its resources once |
| Application.AppNeededFirst | src/xyberos/app.py:408-412 | the application's list never has a dependency after its dependent |
| Application.ContextNeededFirst | src/xyberos/app.py:427-431 | nor does a request context's |
| Application.TrackedNeededFirst | src/xyberos/app.py:469-479 | the same for any list tracked along a history of fills |
| JsonSchema.CheckIsExact | src/xyberos/ai/schema.py:88-174 | the schema check accepts exactly the schemas every node of which, at every depth, has only known keywords and says of each only values of the right shape |
| JsonSchema.CheckFails | src/xyberos/ai/schema.py:88-129 | a rejection's path leads to a node that is really unusable |
| JsonSchema.ValidatePasses | src/xyberos/ai/schema.py:177-293 | in an accepted payload every keyword holds at every place its node applies to |
| JsonSchema.ValidateFails | src/xyberos/ai/schema.py:177-293 | a rejection's path leads to a value at which the named keyword really fails |
| JsonSchema.ValidatorIsExact | src/xyberos/ai/schema.py:177-306 | for a usable schema the validator accepts exactly the payloads that satisfy its declarative meaning |
| JsonSchema.PayloadIsDecided | src/xyberos/ai/schema.py:63-73 | the payload comes back unchanged exactly when the schema is usable and describes it; otherwise the error is justified |
| JsonSchema.TypesAgree | src/xyberos/ai/schema.py:195-218 | the type test equals membership among the value's type names; a float is never an integer |
| JsonSchema.BoundsAgree | src/xyberos/ai/schema.py:234-274 | the bound checks break exactly when a bound keyword fails as the schema says it, and the first one reported does fail |
| JsonSchema.GivenIsSaid | src/xyberos/ai/schema.py:99-105 | what is read for a keyword is the value of the first field of that name, unless that is null |
| JsonSchema.UsableAsGiven | src/xyberos/ai/schema.py:88-174 | the shape of a node, told from what the schema says, is what the checks on the values read ask for |
| JsonSchema.HoldsAsGiven | src/xyberos/ai/schema.py:177-293 | each keyword, told from what the schema says, holds of a value exactly when the validator's own comparison does |
| JsonSchema.TypesAreOfValues | src/xyberos/ai/schema.py:19-41 | the supported type names are exactly those that some value has |
| JsonSchema.KnownNames | src/xyberos/ai/schema.py:19-41 | the known names are those of the keywords, of the two places for sub-schemas and of the annotations |
| Enumerations.EqualUnlessMixed | src/xyberos/ai/schema.py:296-299 | strict JSON equality is the language's equality without a place where just one side is a boolean |
| Enumerations.EnumEqualityIsLooser | src/xyberos/ai/schema.py:221-231 | the enumeration comparison errs only by accepting, and exactly when such a place lies below the top |
| Enumerations.EnumAdmitsAnUnlistedArray | src/xyberos/ai/schema.py:296-299 | a concrete payload admitted though not listed |
| Enumerations.OnlyEnum | src/xyberos/ai/schema.py:221-231 | a schema with just an enumeration accepts exactly what the enumeration admits |
| Enumerations.StandardButForEnums | src/xyberos/ai/schema.py:177-299 | for any usable schema and payload, the meaning with strict JSON equality holds exactly when the validator accepts and at no met place an enumeration admits its value only for a candidate that differs in booleans below the top; so the validator never refuses what the standard accepts |
| Enumerations.LoneEnumIsStandardExactly | src/xyberos/ai/schema.py:221-231 | a schema with just an enumeration admits exactly the listed payloads if and only if with every candidate it lists all variants of it, in which booleans below the top stand for the numbers they count as or the other way round |
| Enumerations.SomeVariant | src/xyberos/ai/schema.py:296-299 | whatever the language finds equal to a value is strictly equal to one of its finitely many variants |
| Enumerations.VariantIsEqual | src/xyberos/ai/schema.py:296-299 | and every variant is equal to the value in the language's sense |
| Enumerations.PlainEnumsAreStandard | src/xyberos/ai/schema.py:221-231 | for a schema no candidate of which holds a boolean, zero or one below its top, validation equals the meaning with strict JSON equality in its enumerations, whatever the payload |
| Tools.ToolSet.Add | src/xyberos/ai/tools.py:175-181 | a taken name is refused and changes nothing; otherwise the tool is added last |
| Tools.ToolSet.Accepts | src/xyberos/ai/tools.py:216-228 | a call passes exactly when its arguments satisfy the tool's declared schema |
| Tools.ToolSet.Run | src/xyberos/ai/tools.py:229-255 | a handler that returns or raises is answered with one outcome event; a cancelled one leaves none |
| Tools.ToolSet.Invoke | src/xyberos/ai/tools.py:200-255 | a handler runs if and only if the tool is allowed and its arguments fit; result and events follow for each of the five endings |
| Tools.ToolSet.InvokeAll | src/xyberos/ai/tools.py:257-262 | calls are answered in order, each seeing the calls run before it, up to the first one denied or cancelled; exactly the runnable calls reach handlers; the events are the trail of these answers |
| Tools.TrailKeepsOrder | src/xyberos/ai/tools.py:264-286 | a trail of answers keeps the log gap-free and paired, whatever stood before |
| Tools.BatchKeepsOrder | src/xyberos/ai/tools.py:200-286 | a batch keeps the sequence numbers gap-free, and every request paired with its outcome unless and only unless it was cancelled |
| Tools.ResultsTell | src/xyberos/ai/tools.py:215-262 | each result of a batch says of its call what the handler returned or raised on the calls run before it, or that the declared parameters do not describe the arguments |
| Tools.TrailTells | src/xyberos/ai/tools.py:185-256 | an answered call's two events carry its tool, its argument names and the next two numbers, and tell what became of it |
| Facade.AnswersAreChecked | src/xyberos/ai/facade.py:170-184 | a call succeeds exactly when the model answers without refusing and, where a schema applies, with a payload it describes; nothing else of the answer changes |
| Facade.NeedsAreClaimed | src/xyberos/ai/facade.py:100-135 | a request passes exactly when all it needs is claimed, and otherwise something it needs that is not claimed is named |
| Facade.FailuresTell | src/xyberos/ai/facade.py:100-175 | a failure's error is the one for what went wrong, down to a place in the payload and the keyword that fails there |
| Facade.StructuredPayloads | src/xyberos/ai/facade.py:186-196 | exactly which payloads a structured call returns, the unchecked ones included |
| Facade.NullIsTheOnlyPayloadLost | src/xyberos/ai/facade.py:186-196 | of the payloads the schema describes, a structured call refuses null and no other |
| Facade.AIFacade.Chat | src/xyberos/ai/facade.py:381-397 | a request needing what the provider does not claim is never sent; otherwise it is sent once and concluded from the reply |
| Facade.AIFacade.Structured | src/xyberos/ai/facade.py:186-196 | without a schema nothing is sent |
| Facade.AIFacade.ChatWithTools | src/xyberos/ai/facade.py:269-304 | at most the allowed rounds; each request is the one before with the response and one result per call in order; the answer carries the summed usage and the round count; every other ending, a result that cannot be sent back included, is told from the last round; exactly the runnable calls reached handlers; events stay paired unless cancelled |
| Facade.AIFacade.Round | src/xyberos/ai/facade.py:287-303 | one round extends the conversation by one turn or ends the run as promised |
| Facade.AIFacade.UseTools | src/xyberos/ai/facade.py:301-303 | the messages of the next round are this one's, the response and its results |
| Facade.MessagesOnlyGrow | src/xyberos/ai/facade.py:285-303 | the messages of a round are the beginning of those of every later one |
| Facade.EveryCallIsAnswered | src/xyberos/ai/facade.py:301-303 | in every later request each call's message stands at its own place after the response that made it, names its tool and holds the rendering of a result that tells what the handler did on the history of all calls run before; the next request holds nothing more |
| Facade.RunnableOnlyJoins | src/xyberos/ai/tools.py:257-262 | the runnable calls of two batches are those of the first, then those of the second |
| Text.WordsOfJoin | examples/support_desk/service.py:455 | splitting what was joined gives back the words |
| Text.SpacesAre | examples/support_desk/service.py:453-457 | white space is these 29 characters and no others |
| Text.NormalizingTwice | examples/support_desk/service.py:455 | normalising is idempotent |
| Text.NoLonger | examples/support_desk/service.py:455-457 | normalising never lengthens a text |
| Text.NormalizedIsNormal | examples/support_desk/service.py:453-455 | it leaves exactly the normal texts alone, makes every text normal, and yields nothing exactly for blank ones |
| Text.ValidatedIsStored | examples/support_desk/service.py:451-458 | what passes the check is normal, within the limit, with the same words; any non-blank text within the limit passes |
| Text.StoredIsFixed | examples/support_desk/service.py:451-458 | a text is as the check leaves it exactly when checking it again returns it |
| SupportDesk.TicketService.OpenTicket | examples/support_desk/service.py:85-103 | a new ticket in the caller's tenant, visible to the caller, with one audit row; keeps the invariants |
| SupportDesk.TicketService.EditTicket | examples/support_desk/service.py:134-153 | succeeds exactly for valid changes to a visible new ticket, and rewrites only the named fields |
| SupportDesk.TicketService.ClassifyTicket | examples/support_desk/service.py:155-180 | errors in order; on success only the ticket's state, category and confidence change, with one audit row |
| SupportDesk.TicketService.AttachSuggestion | examples/support_desk/service.py:182-201 | adds the normalised draft and moves the ticket; sends nothing |
| SupportDesk.TicketService.ApproveTicket | examples/support_desk/service.py:223-264 | rewrites the newest draft's approval alone; in a consistent database a draft is always found, and an unedited one is always accepted and stored to the letter |
| SupportDesk.TicketService.SendReply | examples/support_desk/service.py:266-304 | adds one message with the approved text to the requester; the refusal for a missing approval needs an inconsistent database |
| SupportDesk.TicketService.CloseTicket | examples/support_desk/service.py:306-320 | succeeds exactly for a visible replied ticket |
| SupportDesk.TicketService.RejectTicket | examples/support_desk/service.py:322-332 | succeeds exactly for a lead and a visible new or classified ticket |
| SupportDesk.TicketService.MarkAsSpam | examples/support_desk/service.py:334-344 | succeeds exactly for staff and a visible new ticket |
| SupportDesk.TicketService.RecordEvent | examples/support_desk/service.py:358-369 | keeps the trail replayable exactly when the action is none of the lifecycle's names |
| SupportDesk.TicketService.AuditTrail | examples/support_desk/service.py:346-356 | shown exactly to staff of the ticket's tenant and to its requester: the ticket's rows in order, and replaying them gives its state |
| SupportDesk.TicketService.Perform | examples/support_desk/service.py:74-374 | any call of any operation does what that operation is for and answers it, or is refused for the first reason in order and changes nothing; it keeps the tables consistent and, unless it records an event under a move's name, every trail replaying |
| SupportDesk.Run | examples/support_desk/service.py:74-374 | from the empty tables, each call in its turn does to the tables what it is for; after any calls the tables are consistent, no ticket is answered twice or without approval, and without such events every trail replays, in at most five moves |
| SupportDesk.CallsDecideTheRun | examples/support_desk/service.py:74-374 | the calls alone decide every table and every answer along a run |
| SupportDesk.NothingIsErased | examples/support_desk/service.py:74-374 | later tables keep every audit row and message as they were, every draft but for its approval, and every ticket's tenant and requester |
| SupportDesk.TextsAreAsSent | examples/support_desk/service.py:432-459 | what an opened, edited or drafted ticket holds is what was sent, word for word and within its length, in the fields named; the other field stays, and the trail names the fields |
| SupportDesk.ApprovalsAreAsSent | examples/support_desk/service.py:223-264 | an approval is of the newest draft, by the caller, with the text sent or the draft's own |
| SupportDesk.EditsGoThrough | examples/support_desk/service.py:134-153 | which edits go through, and what the others are refused for first |
| SupportDesk.RefusedMovesAreNamed | examples/support_desk/service.py:52-60 | a move refused for the ticket's state names that state and the operation, and the state is not one it may leave |
| SupportDesk.NotFoundMeansHidden | examples/support_desk/service.py:387-395 | a ticket reported as not found is the one asked for, and hidden from the caller or not there |
| Visibility.ForeignTicketsStay | examples/support_desk/service.py:377-395 | no call changes a ticket of another tenant or, by someone without a staff role, of another requester, or adds a row for one |
| Visibility.StrangersLeaveNoTrace | examples/support_desk/service.py:377-395 | over a whole run, a ticket stays as it was as long as only such strangers to it call |
| Visibility.OnlyStaff | examples/support_desk/service.py:155-344 | every operation but opening, editing and closing succeeds only for a staff role, and rejecting only for a lead |
| Visibility.AnswersAlike | examples/support_desk/service.py:377-395 | on two databases that differ only in tickets hidden from the caller and their rows, a call answers the same, and leaves two such |
| Visibility.NothingIsLearned | examples/support_desk/service.py:377-395 | so does any sequence of one principal's calls |
| Visibility.TrailsShownAlike | examples/support_desk/service.py:346-356 | and in both the same trails are shown, with the same rows |
| SupportDesk.TicketService.Record | examples/support_desk/service.py:406-423 | one row more, in the caller's transaction |
| SupportDesk.TicketService.Deliver | examples/support_desk/mail.py:31-53 | one message more, in the caller's transaction |
| SupportDesk.RewriteReplays | examples/support_desk/service.py:52-60 | a change that follows the lifecycle keeps every ticket's trail replaying to its state |
| SupportDesk.EventReplays | examples/support_desk/service.py:358-369 | an event keeps all trails true if and only if its name is no move |
| SupportDesk.TrailsAreShort | examples/support_desk/service.py:52-60 | a trail the lifecycle allows holds between the least and the most moves of its state, at most five |
| SupportDesk.BoundsAreMet | examples/support_desk/service.py:52-60 | some trail to each state has the most moves, and some the least |
| SupportDesk.NoTicketMovesMoreThanFiveTimes | examples/support_desk/service.py:52-60 | the same for every ticket whose trail replays |
| SupportDesk.DraftingKeeps | examples/support_desk/service.py:190-200 | adding a draft to a classified ticket keeps one draft per ticket that has one |
| SupportDesk.ApprovingKeeps | examples/support_desk/service.py:253-263 | approving the newest draft keeps the tables consistent |
| SupportDesk.SendingKeeps | examples/support_desk/service.py:292-303 | sending keeps exactly one message per answered ticket, with the approved text, requester and tenant |
| SupportDesk.DraftIsThere | examples/support_desk/service.py:248-249 | where a state calls for a draft or an approved one, the query finds it |
| SupportDesk.EveryMessageWasApproved | examples/support_desk/mail.py:31-53 | every message in the outbox is a text approved for its ticket, to its requester, in its tenant, and the ticket says it was sent |
| SupportDesk.OneMessageEach | examples/support_desk/service.py:266-304 | no two messages belong to one ticket |
| Usage.SummaryAgreesWithTotals | examples/support_desk/usage.py:99-169 | for any price table, grouped and row-by-row cost differ by at most half a millionth per row and group, and tokens agree |
| Usage.WaysAgreeExactly | examples/support_desk/usage.py:34-40 | grouped and row-by-row cost are equal on every log if and only if every price is a whole number of millionths per token |
| Usage.WholePricesAgree | examples/support_desk/usage.py:34-40 | they are equal when prices are whole millionths per token |
| Usage.SomeLogDisagrees | examples/support_desk/usage.py:34-40 | for any price table with another price, enough calls of one token make the two differ |
| Usage.ShippedPricesAgree | examples/support_desk/usage.py:22-26 | so they are for the shipped prices |
| Usage.TwoHalvesAreRoundedAway | examples/support_desk/usage.py:34-40 | and need not be for others |
| Usage.GroupsAreExact | examples/support_desk/usage.py:102-119 | before rounding, any grouping by step and model adds up to the rows |
| Usage.GroupedIsGrouping | examples/support_desk/usage.py:102-119 | every log has such a grouping |
| Usage.Round | examples/support_desk/usage.py:40 | within one half of its argument, and even when exactly one half away |
| Usage.SettlingMovesOutcomes | examples/support_desk/usage.py:78-86 | settling moves exactly the pending rows of a ticket to the outcome, costs nothing, and leaves none pending |
| Usage.UsageLog.Record | examples/support_desk/usage.py:49-76 | one pending row more |
| Usage.UsageLog.Settle | examples/support_desk/usage.py:78-86 | only pending rows of the ticket change, and their number is returned |
| Usage.UsageLog.Summary | examples/support_desk/usage.py:99-135 | a tenant's groups add up to its totals |
| Recovery.DecidingOnce | src/xyberos/durable/recovery.py:58-97 | a decision about a running step under a fresh claim is legal, and afterwards the claim can record no other |
| Recovery.DecidedIsJust | src/xyberos/durable/recovery.py:58-97 | an interrupted step is repeated only if idempotent or said never to have happened, succeeds or fails only if said to, and is unknown only if undeclared or nobody can tell; nothing is decided exactly if the reconciler breaks |
| Recovery.LifeCycles | src/xyberos/durable/models.py:105-177 | both life cycles, told by where they lead |
| Recovery.OnlyTheHolderWrites | src/xyberos/durable/store.py:312-396 | a write goes through exactly under the claim's own live lease, along the life cycles, without a cancellation, and changes nothing else |
| Recovery.OnlyTheHolderMoves | src/xyberos/durable/store.py:312-354 | so does a write of the status alone, or one that acknowledges a cancellation; yielding ends the lease |
| Recovery.OvertakenCannotWrite | src/xyberos/durable/store.py:189-245 | under a token that is not the highest any more nothing can be written at any time |
| Recovery.ClaimableWhen | src/xyberos/durable/store.py:546-640 | who may be claimed, status by status |
| Recovery.ClaimsAreFresh | src/xyberos/durable/store.py:605-640 | a claim gives a live lease under a higher token and touches no step |
| Recovery.JournalStore.ClaimNext | src/xyberos/durable/store.py:546-666 | claims the oldest eligible execution under a higher fencing token, or finds there is none |
| Recovery.JournalStore.ResolveInterruptedAttempt | src/xyberos/durable/recovery.py:44-97 | records exactly the state the step's policy, or its reconciler's verdict, calls for, or nothing |
| Recovery.JournalStore.ResolveAttempts | src/xyberos/durable/recovery.py:183-191 | with one interrupted attempt its decision is recorded; with more the pass fails after at most one |
| Recovery.JournalStore.RecoverOne | src/xyberos/durable/recovery.py:163-193 | what becomes of a claimed execution in each case, and that every step follows its policy; unless cut short, it succeeds exactly when the execution was cancelled, has nothing interrupted, or has one interrupted attempt of a known definition whose reconciler does not break |
| Recovery.JournalStore.FailExecution | src/xyberos/durable/store.py:1188-1209 | the transition is legal under a fresh claim |
| Recovery.JournalStore.Examine | src/xyberos/durable/recovery.py:122-145 | decides the listed execution if it is the oldest to claim, and otherwise leaves at most a claim; not cut short, it fails only if that execution, the oldest to claim, is of a known definition and has more than one interrupted attempt or one whose reconciler breaks |
| Recovery.JournalStore.Recover | src/xyberos/durable/recovery.py:100-152 | decides exactly the longest prefix of the expired list in which each execution is the oldest to claim at its turn and none but the last is resumed, told from the journal at the start; the decided ones equal the keys of the decisions and each is filed once under what really happened to it; not cut short, it fails exactly at the first broken execution it comes to, told from the journal at the start, with everything before it decided and nothing else but that one touched |
| Recovery.DecidesAllExactly | src/xyberos/durable/recovery.py:122-127 | a pass decides its whole list exactly when nothing in it calls for a stop |
| Recovery.NothingBrokenDecided | src/xyberos/durable/recovery.py:122-145 | a pass that finishes has come to no broken execution in its turn |
| Recovery.ExaminedFails | src/xyberos/durable/recovery.py:128-134 | an examination that fails, not cut short, fails at an execution that the starting journal says the pass comes to and that is broken in it |
| Recovery.NextIsOldest | src/xyberos/durable/recovery.py:123-127 | after the decisions so far, the next execution is the oldest to claim exactly when the starting journal says the pass need not stop there |
| Recovery.RecoverAgain | src/xyberos/durable/recovery.py:100-152 | any number of passes, each going on from the journal the one before left and ending as a pass ends, cut short wherever its writes run out, change a step only if it was interrupted, and then as its policy or its reconciler's verdict has it |
| Recovery.ExpiredLeases | src/xyberos/durable/store.py:1665-1690 | lists exactly the running executions whose lease expired, in the order they expired |
| Recovery.TwoInterruptedAttempts | src/xyberos/durable/recovery.py:184-192 | a concrete execution with two interrupted attempts: recovery fails with the first recorded as unknown and the second still running |
| Recovery.ResumedComesNext | src/xyberos/durable/recovery.py:123-127 | a resumed execution is the oldest to claim once more |
| Leases.InvKept | src/xyberos/durable/worker.py:137-223 | every action of any worker, and every stop from outside, keeps at most one attempt and makes every live claim right about it |
| Leases.OneAttemptAtATime | src/xyberos/durable/store.py:783-831 | in every reachable state an execution has at most one running step |
| Leases.ClaimsAsTheJournal | src/xyberos/durable/store.py:546-640 | a claim is open, and does, what the journal's claim is and does |
| Leases.WritesAsTheJournal | src/xyberos/durable/store.py:312-396 | a worker's guard is the journal's, and its writes are the journal's |
| Leases.AttemptsAsTheJournal | src/xyberos/durable/store.py:783-880 | so are an attempt's start and end, and a skipped step |
| Leases.LeasesAsTheJournal | src/xyberos/durable/store.py:668-700 | and a lease kept alive, a stop from outside and a return from waiting; time and crashes leave the row alone |
| Leases.AttemptsEndProperly | src/xyberos/durable/store.py:67-75 | a running step stops only by its own worker under an unbroken live lease, or as its policy decides |
| Leases.OvertakenIsNeverGuessed | src/xyberos/durable/recovery.py:89-97 | once another worker claims in the middle of an attempt nobody can vouch for, it stays running or unknown for ever, and is never repeated |
| Leases.WhatSucceededIsNotRepeated | src/xyberos/durable/recovery.py:69-88 | once a pass has decided an attempt whose reconciler reports success, the step stays succeeded and is never started again |
| Transactions.Database.Transaction | src/xyberos/database/sqlite.py:179-193 | all of an operation is kept exactly when the commit succeeds, and otherwise nothing |
| Transactions.Database.Retrying | src/xyberos/database/sqlite.py:195-221 | whatever other writers commit between attempts, the operation is applied to their changes exactly once if it returns and not at all if it raises; it ends at the first attempt not locked out or after the last; it waits as stated in between |
| Transactions.LockContentionWhen | src/xyberos/database/sqlite.py:277-290 | an error is retried exactly if the layer says another writer holds the lock, or the driver's message says so somewhere, in any case, of the database, a table or the schema |
| Transactions.SucceedsExactlyWhen | src/xyberos/database/sqlite.py:209-221 | a value is returned exactly when some attempt within the budget commits after nothing but locked ones |
| Transactions.WaitingIsBounded | src/xyberos/database/sqlite.py:220 | all waiting together is at most the base delay times the sum of the first n - 1 numbers |
| Transactions.DelaysAddUp | src/xyberos/database/sqlite.py:220 | the delays add up to the base delay times a triangular number |
| Transactions.TriangleIsHalf | src/xyberos/database/sqlite.py:220 | which is half of n times n + 1 |
| Journal.StepsCompose | src/xyberos/durable/journal.py:245-254 | running the steps to a version and on from there is running them all |
| Journal.StepRuns | src/xyberos/durable/journal.py:245-254 | a step succeeds exactly if its statements run one after the other, each on what the one before left, and leave a metadata table, in which its version is recorded |
| Journal.PathsMeet | src/xyberos/durable/journal.py:234-262 | a file built from any prefix of the steps migrates to the tables and version an empty one migrates to, and keeps its creation time; it fails exactly when the empty one fails |
| Journal.StepsKeepCreation | src/xyberos/durable/journal.py:255-261 | steps neither read nor change the creation time |
| Journal.OlderPackageSetsBack | src/xyberos/durable/journal.py:244-262 | a concrete race in which an older package sets a file's version back from two to one |
| Journal.JournalFile.Migrate | src/xyberos/durable/journal.py:234-262 | whatever others do between the read and the write: a newer file is refused, a current one not written, and otherwise the file is what the pending steps make of the file as it is then, or that file; the version is set back exactly when the write succeeds and the version then recorded exceeds this package's |
| Journal.JournalFile.Start | src/xyberos/durable/journal.py:213-228 | a read-only journal is never written; a current one is not either; otherwise it succeeds exactly when the pending steps do, and the file is then what they make of it, at this package's version; it stays open exactly unless refused as newer |
| Settings.DeepMerge | src/xyberos/config.py:153-164 | the loop computes the merge |
| Settings.MergedLeaf | src/xyberos/config.py:153-164 | for any two layers and any path, the upper layer's leaf; nothing where it has a leaf higher up or a table; otherwise the lower layer's leaf |
| Settings.HighestLayerWins | src/xyberos/config.py:95-106 | with compatible layers each leaf is that of the highest layer that sets its path |
| Settings.AssociativeExactly | src/xyberos/config.py:153-164 | merging is associative exactly unless, at some path, a value stands between two tables of which the lower has a key, at some depth, that the upper lacks |
| Settings.AddsNothingExactly | src/xyberos/config.py:153-164 | merging leaves the upper table as it is exactly when it has every key of the lower, at every depth where both have tables |
| Settings.CompatibleAssociates | src/xyberos/config.py:153-164 | compatible layers associate |
| Settings.NotAssociative | src/xyberos/config.py:153-164 | a concrete failure |
| Environment.JoinOfSplit | src/xyberos/config.py:140 | joining the parts of a name gives it back |
| Environment.SplitOfJoin | src/xyberos/config.py:140 | splitting gives back exactly the parts that hold no separator and, but for the last, end in no underscore |
| Environment.RelevantNames | src/xyberos/config.py:137-142 | a variable is a setting exactly if its name is the prefix followed by anything but the name of the file's variable; it spells a path exactly if no part is empty |
| Environment.SamePathSameName | src/xyberos/config.py:138-140 | two variables mean one path exactly when their names agree but for case |
| Environment.Inserted | src/xyberos/config.py:143-149 | inserting fails exactly when a value is on the way, sets its own path, clears what was below it and changes nothing else |
| Environment.BuiltHolds | src/xyberos/config.py:135-150 | a prefix-free environment builds tables with exactly its settings, in whatever order |
| Environment.ReturnsEveryExactly | src/xyberos/config.py:135-150 | all settings come back exactly when the paths are prefix-free |
| Environment.OrderDecides | src/xyberos/config.py:143-149 | the same two settings lose one or are refused, by order |
| Environment.EnvironmentValues | src/xyberos/config.py:135-150 | succeeds exactly when all names are valid and nothing conflicts, and returns every setting exactly when they are prefix-free; a failure names the first variable that spells no path or conflicts, whichever it does |
| Environment.SectionsFrom | src/xyberos/config.py:204-221 | succeeds exactly for named tables |
| Environment.SectionIsFound | src/xyberos/config.py:213-220 | under a section's lower-case name stands the last section so named, never a merge |
| Explain.FullTreesHaveNoCycle | src/xyberos/cli/check.py:250-271 | a contract with a finite full dependency tree reaches no cycle |
| Explain.SeenIsFull | src/xyberos/cli/check.py:263-271 | a path without repetition is no longer than there are providers, so the bound cuts nothing off |
| Explain.SeesAllExactly | src/xyberos/cli/check.py:142 | the bounded walk sees the full tree exactly when no cycle is in reach |
| Explain.OneFullTree | src/xyberos/cli/check.py:250-271 | the full tree is unique |
| Explain.Pigeonhole | src/xyberos/cli/check.py:257-264 | distinct registered contracts are no more than the providers |
| Explain.Walk.DescribeDependencies | src/xyberos/cli/check.py:250-271 | appends, for any snapshot, the preorder of what the walk may see, and ends |
| Explain.MatchProvider | src/xyberos/cli/check.py:225-242 | a full name wins; otherwise the unique name ending in it; otherwise unknown or ambiguous |
| Explain.ExplainContract | src/xyberos/cli/check.py:116-143 | for a validated registry, prints the preorder of the full dependency tree of the matched contract |

## Left out

- Resolution knows closing only as the clearing of an owner's instances, at any time; closing itself is in `Lifecycle` and, sequentially, in `Application`. Cancellation of a task is one of the ways its step raises.
- Resolution.DependenciesAreOwnedFirst: says nothing of an owner whose instances were cleared, because a resolution still outstanding then may track in any order.
- Resolution.NoDeadlock: says that some task can step, not which one does; a call takes boundedly many steps and all end once no new ones begin, but while new calls keep coming a waiter may be passed over for ever, because fairness is the event loop's.
- A lock is handed to any waiter, not to the first one in line.
- Application: providers given as fixed instances, parameter names and overrides for tests; a factory is a function of its arguments, and one that itself raises a resolution error is reported as any other that raises; a close that raises while an instance is being refused.
- Lifecycle: what plugins do while they start and stop, beyond how it may end.
- JsonSchema: not-a-number and infinite floats and the rounding of floats, because numbers are mathematical here; schemas and payloads are JSON values, so their keys are strings; error texts.
- JsonSchema.Get: an object with a repeated field answers with the first one, though a dictionary has none; only Enumerations.LoneEnumIsStandardExactly asks that there are none.
- Tools: several batches running at once on one tool set, whose events would interleave; a sink that raises; timing.
- Facade: time budgets, where a request cut short is a failed reply; streaming, embeddings and logging.
- Facade.AIFacade.ChatWithTools: tools added to the set while the loop runs are not considered.
- SupportDesk: timestamps, paging of the ticket list, column lengths the database does not enforce, and rows written by anything but the service.
- Visibility.AnswersAlike: compares databases with as many rows, because the numbers of new tickets and drafts count everybody's, which the code lets a caller see.
- Text: upper- and lower-case and other Unicode properties than white space; a character is one code point.
- Usage: prices are exact rationals, so the error of float prices is not modelled.
- Recovery: one reading of the clock serves a whole pass, so a lease or deadline that runs out in the middle of it is not covered; executions submitted at the same instant are in one fixed order; other workers do not write during the pass, except in `Leases`.
- Recovery.JournalStore.ResolveInterruptedAttempt: the input a reconciler is given is part of the function it stands for.
- Recovery.JournalStore.Recover: a lease of no length is not covered; the settings that name a lease's length refuse it.
- Leases: an operator who settles an unknown step by hand, which is the only way out of that state. Returning a parked execution to the queue is modelled as the code does it, although the transition table has no such entry.
- Transactions: a commit that reports failure after taking effect; cancellation while waiting between two attempts.
- Journal: the SQL of the statements, which are any functions on the tables.
- Environment: letters other than ASCII ones in names, and the walk by reference into nested dictionaries, which is a recursive function here.
- Settings: the typed checks on the merged values, and reading the file.
- Explain: two contracts with the same qualified name, which one snapshot cannot keep apart, and the text of a line beyond what it names.
- The HTTP adapter, the workflow executor, the CLI's scaffolding, the Ollama adapter, password and signature handling.
