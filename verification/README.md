# Verification of max_ai's stateful cores

A Dafny model of the parts of `max_ai` where state outlives one call: files kept in step between a
host, a sandbox and a store; tool calls from approval to transcript; context compaction; sandbox
leases and user quotas shared by concurrent tasks; and three places where a compact or cached form
stands in for a plain one. `dafny verify dfyconfig.toml` checks everything.

Code that updates things in place is modelled as classes whose methods are proved equal to a step
function (`Sync.Step`, `ToolCall.Enter`, `Manager.Prepare`, `Budget.Requested`, ...). The modules
ending in `Runs` then prove what holds over every sequence of those steps, with the outside world
(provider answers, backend replies, tool endings, middleware, other tasks) as inputs that may be
anything. `RemoteRuns`, `ToolRuns` and `BudgetRuns` end a step at every await of the code, so their
runs include every interleaving at await points. `ManagerRuns` takes what runs under a user's lock
as one step, and `SyncRuns` one whole sync.

| module | what it is about |
|---|---|
| `Common` | options, results, lookups |
| `Sync`, `SyncRuns` | three-way sync of a host folder and its sandbox copy |
| `Skills` | manifest-guarded refresh of installed skills |
| `Remote`, `RemoteRuns` | workspaces mirrored to one shared object store |
| `Policy`, `Verdicts` | allow, ask or deny for a tool call, and exactly when |
| `ToolCall`, `ToolRuns`, `ToolOutcomes` | the record of one call, the dispatcher, all interleavings of one call, and what comes of it |
| `Schedules`, `ToolRound` | the order in which the calls of a batch start and end, and one round of calls |
| `InterruptedRound`, `CutRounds`, `OpenCalls` | closing a round that was cut short, what its calls went through, and rounds that leave a call open |
| `Stream` | tool calls assembled from streamed fragments |
| `Transcript`, `Groups` | which windows a provider accepts, and their atomic blocks |
| `TokenBudget`, `Compaction`, `PruneBounds` | token shares, pruning and what it leaves alone, the compaction pipeline |
| `Manager`, `ManagerRuns`, `HandOuts` | sandbox leases, idle expiry, lost sandboxes, failed sync back, and exactly when a lease is handed out |
| `Budget`, `BudgetRuns`, `Admissions` | task budgets, the quota shared by a user's tasks, and exactly when they stop one |
| `Embedding` | the deduplicating, batching LRU cache |
| `Component` | compact configs and their reload |

## Where the code and its documentation differ

The model follows the code. Each difference has a lemma that says exactly when it happens, or what
holds instead, and one with an input or a run that shows it.

- A locally edited skill file is documented as "never auto-overwritten again". It is, once its key
  leaves the source and comes back: `Skills.EditKeptIff`, `Skills.EditLostWhenKeyReturns`; a local
  deletion is undone in the same way, `Skills.DeletionKeptIff`.
- A whole-tool allow rule is documented to cover what the tool could not read. A narrower rule
  listed before it takes that away: `Policy.UnreadableCallCoveredIff`,
  `Policy.NarrowRuleShadowsWholeTool`.
- "Always allow" has no effect on the user's own machine while one of the agent's own rules covers
  the call: `Policy.AlwaysAllowTakesEffectIff`, `Policy.AgentRuleShadowsAlwaysAllow`.
- Pruning can break the window when a block mixes harness messages with others, for which a call
  of a tool named "harness" is enough: `Compaction.PruneAcceptedIff`,
  `Compaction.HarnessNamedToolBreaksWindow`.
- A lease whose release is cancelled before its sync back has finished leaves unsynced changes that
  `cleanup_errors` does not know of: `ManagerRuns.ReleaseRecordsUnlessInterrupted`,
  `ManagerRuns.InterruptedReleaseIsForgotten`.
- Closing a cut round does not always answer every call (`CutRounds.ClosedTranscriptAcceptedIff`). A
  call that is still executing stays open: a raising `tool_response` middleware brings this about
  (`OpenCalls.RaisingMiddlewareLeavesCallOpen`), and so does an exception in one call of a read-only
  batch, whose siblings run on (`OpenCalls.RaisingSiblingLeavesCallOpen`). So does a call that was
  consumed without an answer before the round was resumed, because a resumed round is handed only
  the calls not consumed yet (`OpenCalls.StaleCallStaysUnanswered`).
- A component dumped by an older version of its class loads differently from its compact form, unless
  its class overrides the migration and has nothing to change: `Component.CompactRoundTripIff`,
  `Component.OlderComponentLoadsDifferently`.
- An edit left behind by a run that broke off is overwritten by the next download, unless the store
  has no such object or already that content: `RemoteRuns.UnfinishedEditSurvivesIff`,
  `RemoteRuns.UnfinishedEditIsOverwritten`.
- A download during which another process uploads can end with a mixture the store never held:
  `RemoteRuns.DownloadAgreesKeyByKey` says what it does end with, `RemoteRuns.OneKeyChangesAreNotTorn`
  that it takes changes to two keys, and `RemoteRuns.TornDownload` shows the mixture.

## Model

| member | source | states |
|---|---|---|
| Sync.Plan | max_ai/core/executor/sync.py:120-140 | an error exactly when some file is held in three different versions, naming such a file; otherwise the names to copy and to delete are exactly those the source changed and the destination does not have yet |
| Sync.Apply | max_ai/core/executor/sync.py:95-105 | the destination, file by file, after a transfer that got through any part of the plan |
| Sync.AppliedIsMoved | max_ai/core/executor/sync.py:95-140 | carrying out the plan is the per-file three-way merge of the reached files |
| Sync.SyncedFolder.SyncWorkspace | max_ai/core/executor/sync.py:83-117 | host, sandbox and baseline after one sync, with its three outcomes: synced, stopped on a conflict, failed listing or transfer |
| Sync.SyncedFolder.MoveBaseline | max_ai/core/executor/sync.py:107-117 | baseline entries move for files equal on both sides and for no others |
| SyncRuns.SyncMergesOrStops | max_ai/core/executor/sync.py:92-117 | a conflict leaves all three listings alone; otherwise the destination takes the source's own changes and keeps its own elsewhere, and the piecewise baseline loop ends at the source listing |
| SyncRuns.ConflictedIff | max_ai/core/executor/sync.py:130-135 | a sync in either direction stops if and only if some file is held in three different versions, absence included |
| SyncRuns.OneSidedChangesGetThrough | max_ai/core/executor/sync.py:92-117 | when only the source changed anything, the sync makes host, sandbox and baseline the source's files |
| SyncRuns.OppositeSyncConverges | max_ai/core/executor/sync.py:83-140 | the opposite sync right after cannot conflict and makes host, sandbox and baseline equal |
| SyncRuns.RetryAfterBrokenTransfer | max_ai/core/executor/sync.py:83-140 | a transfer that broke anywhere can be run again, cannot conflict, and ends where an unbroken one would |
| SyncRuns.BaselineWasAgreed | max_ai/core/executor/sync.py:107-117 | in every run of edits and syncs, each baseline entry was on both sides at the end of an earlier completed sync |
| SyncRuns.NoLostUpdate | max_ai/core/executor/sync.py:83-140 | in every run, a version a sync overwrites or deletes is its baseline entry and was once on both sides |
| SyncRuns.Mirror | max_ai/core/executor/sync.py:71-80 | the copied and deleted names, and that they make the sandbox copy exactly the host's |
| Skills.SkillDirectory.Materialize | max_ai/base/skills.py:131-134 | a first install copies and lists the whole source |
| Skills.SkillDirectory.SyncSkill | max_ai/base/skills.py:197-232 | the two passes of a sync, per key: refreshed, adopted, left alone or dropped |
| Skills.UntouchedFollowsSource | max_ai/base/skills.py:211-230 | after any run of syncs a key nobody touched is what the source last offered, files new to the source included |
| Skills.AdoptedThenFollows | max_ai/base/skills.py:220-224 | a file that was there before its entry survives one sync and then follows the source |
| Skills.UnofferedIsGivenUp | max_ai/base/skills.py:227-230 | a key the source does not offer loses its entry, and its file exactly when that was untouched |
| Skills.EditSurvives | max_ai/base/skills.py:197-232 | an edited or deleted listed file and its entry never change while the key stays in the source, over any number of syncs and source updates |
| Skills.EditKeptIff | max_ai/base/skills.py:220-230 | an edited file survives every prefix of a run if and only if, once its key has left the source and come back, the source offers nothing but the user's own version |
| Skills.DeletionKeptIff | max_ai/base/skills.py:213-230 | a local deletion lasts if and only if the key never comes back once the source has dropped it |
| Skills.EditLostWhenKeyReturns | max_ai/base/skills.py:202-205 | a run in which the documented "never overwritten again" fails |
| Skills.FixedPoint | max_ai/base/skills.py:211-230 | with source and files at rest two passes reach a fixed point; one is enough exactly when no unlisted local file differs from the source |
| Skills.OnlyListedVersionsAreReplaced | max_ai/base/skills.py:211-230 | a sync changes an existing file if and only if the file equals its manifest entry and the source differs from it |
| Remote.RemoteWorkspace.Download | max_ai/capabilities/workspace/_remote.py:99-119 | local file and manifest entry of every key after a download |
| Remote.RemoteWorkspace.Upload | max_ai/capabilities/workspace/_remote.py:121-135 | exactly the files that left their manifest entry are put or deleted; the manifest becomes the local listing |
| Remote.RunOnce | max_ai/capabilities/workspace/_remote.py:99-135 | a run whose transfers nobody overlaps leaves local copy, manifest and store equal to the edit of what the store held, and writes only what the edit changed |
| Remote.Publish | max_ai/capabilities/workspace/_remote.py:121-135 | an upload from a manifest that mirrors the store makes the store mirror the local files |
| Remote.DownloadAgreesAtIff | max_ai/capabilities/workspace/_remote.py:107-118 | the exact condition under which local copy, manifest and store agree on a key after a download |
| Remote.EditSurvivesDownloadIff | max_ai/capabilities/workspace/_remote.py:107-118 | a download leaves an unpublished edit or deletion as it is if and only if the store has no such object, or has that very content |
| RemoteRuns.StepKeeps | max_ai/capabilities/workspace/_remote.py:99-135 | every list, get, put, delete and failure of every process keeps the invariant on transfers under way |
| RemoteRuns.DownloadTakesStoredContents | max_ai/capabilities/workspace/_remote.py:104-119 | in every interleaving, failures included, each key is fetched with a content the store held at some moment of the download, or left as the first listing asks |
| RemoteRuns.DownloadAgreesKeyByKey | max_ai/capabilities/workspace/_remote.py:104-119 | for a process whose last run did not break off, file and manifest entry agree on such a content for every key |
| RemoteRuns.UndisturbedDownloadAgrees | max_ai/capabilities/workspace/_remote.py:104-119 | if no put or delete landed since the listing, the whole copy and the manifest equal the store |
| RemoteRuns.OneKeyChangesAreNotTorn | max_ai/capabilities/workspace/_remote.py:104-119 | if all the writes since the listing are of one key, copy and manifest are a state the store was in meanwhile |
| RemoteRuns.TornDownload | max_ai/capabilities/workspace/_remote.py:104-113 | a run in which an upload overtakes a download, which ends with a copy of no state the store was ever in |
| RemoteRuns.UnfinishedEditSurvivesIff | max_ai/capabilities/workspace/_remote.py:107-118 | in every run, an edit left by a broken-off run survives the next download of an unchanging object if and only if the store has no such object or has that content |
| RemoteRuns.LastWriteWins | max_ai/capabilities/workspace/_remote.py:128-134 | in every interleaving, overlapping uploads included, the store holds for each key the file of the last process that put or deleted it |
| RemoteRuns.OnlyChangesAreWritten | max_ai/capabilities/workspace/_remote.py:128-134 | no process writes a key whose file equals its manifest entry |
| RemoteRuns.UploadPublishesEveryChange | max_ai/capabilities/workspace/_remote.py:121-135 | an upload that ends has had every change of its process in the store at some moment since its scan, and leaves manifest and files equal |
| Remote.SerializedRunsShareOneMap | max_ai/capabilities/workspace/_remote.py:99-135 | serialized runs with separate caches and manifests are edits of one shared file map: each reads what the runs before it left |
| Remote.RunsKeepTags | max_ai/capabilities/workspace/_remote.py:128-131 | every object a run puts carries its hash |
| RemoteRuns.UnfinishedEditIsOverwritten | max_ai/capabilities/workspace/_remote.py:107-113 | a run that edits a file and breaks off, after which a download brings back what the store has |
| RemoteRuns.NothingToGetTwice | max_ai/capabilities/workspace/_remote.py:107-108 | where every object carries its hash, a process whose files are the store's gets nothing |
| Policy.FirstHit | max_ai/core/policy.py:83-87 | the rule reported for deny or ask is in the list and matches a subject, and is found whenever there is one |
| Verdicts.ParsesIff | max_ai/core/policy.py:139-146 | a rule reads as a tool name and a pattern exactly when it is spelled that way |
| Verdicts.MatchesIff | max_ai/core/policy.py:139-146 | a rule matches a subject exactly when it names the tool and has no pattern, or one that matches |
| Verdicts.DeniedIff | max_ai/core/policy.py:83-88 | a call is denied if and only if some deny rule matches some part of it, whatever the other rules say, and the rule reported is the first such one |
| Verdicts.AskedByRuleIff | max_ai/core/policy.py:83-88 | a call is asked about on behalf of the first matching ask rule if and only if there is one and no deny rule matches |
| Verdicts.PermittedIff | max_ai/core/policy.py:89-98 | with no deny or ask rule in the way, exactly when a call is allowed: by what agent and session rules cover, whether the command runs on the host, whose rules it relies on, and the tool's default; what is not allowed is asked about |
| Verdicts.PermittedByRule | max_ai/core/policy.py:91-96 | the rule reported for a covered call is the first to match its first part |
| Verdicts.NoRuleMeansDefault | max_ai/core/policy.py:97-136 | with no matching rule the call is allowed exactly when the tool needs no approval and does not run commands on the host, and asked about otherwise |
| Verdicts.CoveringIff | max_ai/core/policy.py:112-122 | an allow list covers a call exactly when it matches every part, first by a whole-tool rule if the call could not be read in full |
| Policy.AllowedOnlyWithRules | max_ai/core/policy.py:83-136 | a call is allowed only if no deny or ask rule matches any part of it, every part is matched by an allow rule (or the tool needs no approval), and on the host some part of a command is matched by a rule of the user's |
| Policy.MoreDenyOrAskNeverPermits | max_ai/core/policy.py:73-98 | more deny or ask rules never make a call more permissive, and one matching deny rule denies it |
| Policy.MoreSessionRulesNeverForbid | max_ai/core/policy.py:83-98 | more session rules never make a call less permissive and never override a matching deny or ask rule |
| Policy.GeneratedRuleParses | max_ai/core/policy.py:107-109 | the rules "always allow" writes parse back to the tool's name and the command's first word |
| Policy.RulesForCover | max_ai/core/policy.py:100-122 | the rules for a call that was read in full cover every one of its subjects |
| Verdicts.RulesForAreNarrow | max_ai/core/policy.py:104-109 | "always allow" adds nothing for a call that was not read in full, and for a command only rules for the first word of one of its subjects |
| Verdicts.FirstWordIs | max_ai/core/policy.py:109-109 | the first word of a command: only white space before it, none in it, and white space or the end after it |
| Policy.AlwaysAllowTakesEffectIff | max_ai/core/policy.py:83-136 | after "always allow" a call is allowed exactly when no deny or ask rule matches it and, for a command on the host, the agent's rules do not cover it first |
| Policy.AgentRuleShadowsAlwaysAllow | max_ai/core/policy.py:91-96 | a call that "always allow" would let run on the host, and that an agent rule for the whole tool makes ask again |
| Policy.UnreadableCallCoveredIff | max_ai/core/policy.py:112-122 | an allow list covers a call that could not be read in full exactly when the first rule matching each subject is a whole-tool rule |
| Policy.NarrowRuleShadowsWholeTool | max_ai/core/policy.py:115-122 | a narrower rule in front takes away what a whole-tool rule covers |
| ToolCall.ToolCallRecord.DoMarkConsumed | max_ai/types/tool_call.py:370-393 | the transition, when it is refused, and that a refusal changes nothing |
| ToolCall.ToolCallRecord.DoForceConsume | max_ai/types/tool_call.py:425-448 | the transition, when it is refused, and that a refusal changes nothing |
| ToolCall.ToolCallRecord.DoStartExecution | max_ai/types/tool_call.py:360-368 | the transition, when it is refused, and that a refusal changes nothing |
| ToolCall.ToolCallRecord.Finish | max_ai/core/tool/dispatcher.py:172-187 | consumes the record through whichever transition fits its status |
| ToolCall.ToolDispatcher.Dispatch | max_ai/core/tool/dispatcher.py:155-331 | the record, the answer and the active ids from entry to the first await |
| ToolCall.ToolDispatcher.MiddlewareAnswered | max_ai/core/tool/dispatcher.py:325-331 | a blocked call is closed with the middleware's answer, any other starts |
| ToolCall.ToolDispatcher.ToolEnded | max_ai/core/tool/dispatcher.py:332-353 | a call that was executing ends with its tool's own result when that is for this call, an execution error when it is not or the tool raised, a timeout or a cancellation; its middleware may replace the result; and one that raises leaves it executing |
| ToolOutcomes.StartsIff | max_ai/core/tool/dispatcher.py:197-331 | a dispatch starts the tool, or hands it to its middleware, if and only if the call can run and is approved, or allowed and not decided otherwise |
| ToolOutcomes.PausesIff | max_ai/core/tool/dispatcher.py:220-281 | a dispatch waits for the user exactly when policy asks about an undecided call, or a question lacks its answer |
| ToolOutcomes.RaisesIff | max_ai/core/tool/dispatcher.py:155-158 | a dispatch raises, and changes nothing, exactly when the call is executing or is an ordinary one that waits for an answer |
| ToolOutcomes.RefusesIff | max_ai/core/tool/dispatcher.py:197-298 | a dispatch closes an open call exactly when there is a reason not to run it, with the first such reason, or when it is an answered question, with that answer |
| ToolOutcomes.ConsumedIsRepeated | max_ai/core/tool/dispatcher.py:159-160 | a consumed call is not run again; its result is given once more |
| ToolOutcomes.ToolsAnswerIsKept | max_ai/core/tool/dispatcher.py:341-353 | in every run, a call closed by its own tool holds exactly what the tool ended with, for good |
| ToolOutcomes.MiddlewaresAnswerIsKept | max_ai/core/tool/dispatcher.py:351-353 | with a tool_response middleware it holds what that made of it |
| ToolOutcomes.BlockedCallKeepsAnswer | max_ai/core/tool/dispatcher.py:325-329 | a call its tool_request middleware answers ends with that answer and never runs |
| ToolOutcomes.DecisionsTakeEffectIff | max_ai/types/tool_call.py:280-358 | the user's decisions take effect exactly on a call that waits for them, and change nothing else |
| ToolOutcomes.ApprovalLetsCallRun | max_ai/core/tool/dispatcher.py:267-331 | in every run, the dispatch after an approval starts a call that can run, although policy still asks, and it counts as approved by the user |
| ToolOutcomes.RejectionDeniesCall | max_ai/core/tool/dispatcher.py:197-202 | in every run, the dispatch after a rejection closes the call as denied, for good |
| ToolOutcomes.AnswerIsReturned | max_ai/core/tool/dispatcher.py:220-229 | in every run, the dispatch after the user's answer returns that answer, for good |
| ToolOutcomes.QuestionsNeverRun | max_ai/core/tool/dispatcher.py:220-250 | a call dispatched only as a question never runs anything |
| ToolOutcomes.CutAndStaleReasons | max_ai/base/reasoning.py:578-579 | a cut closes an open call as cancelled before its start, and rehydration one left executing as failed, for good |
| ToolRuns.StepKeeps | max_ai/core/tool/dispatcher.py:146-353 | every step of every dispatcher, user and crash keeps the invariant on starts, status and result |
| ToolRuns.ExecutesAtMostOnceAndOnlyIfAllowed | max_ai/core/tool/dispatcher.py:255-331 | in every interleaving a call starts at most once, under a verdict that is not deny and is allow unless the call was approved other than automatically |
| ToolRuns.RejectedNeverExecutes | max_ai/core/tool/dispatcher.py:197-202 | a rejected call never starts, whatever follows |
| ToolRuns.ResultIsFinal | max_ai/types/tool_call.py:370-448 | a result carries the record's id and no later event changes the record |
| ToolRuns.ReturnedIsRecorded | max_ai/core/tool/dispatcher.py:172-187 | whatever a dispatch returns is by then the record's own result, and the record is consumed |
| ToolRuns.ReturnedStays | max_ai/core/tool/dispatcher.py:155-187 | and stays so in every further history of the call, so no two dispatches return different results |
| ToolRuns.LeftExecutingIff | max_ai/core/tool/dispatcher.py:346-353 | a dispatch leaves its call executing exactly when it crashes or its tool_response middleware fails or answers for another call |
| ToolRound.Batches | max_ai/core/tool/dispatcher.py:56-68 | the batches, written down as a function of the round; they concatenate to it, are single calls or all read-only, and are as long as they can be |
| ToolRound.BatchingIsUnique | max_ai/core/tool/dispatcher.py:56-68 | those three conditions leave only one way to batch a round |
| Schedules.FlightsStayInside | max_ai/core/tool/dispatcher.py:107-111 | no schedule of a batch ever has more than `limit` calls in flight, or calls of another batch |
| Schedules.StartedCallsFly | max_ai/core/tool/dispatcher.py:107-111 | every call that is no longer waiting has been in flight |
| Schedules.SomeSchedule | max_ai/core/tool/dispatcher.py:107-120 | every batch has a schedule, whatever its calls end with |
| ToolRound.RunBatch | max_ai/core/tool/dispatcher.py:107-120 | for every schedule, what was in flight after each move and which calls are left running; it raises exactly when a call of the batch does, and otherwise every call ends as its own dispatch ended |
| ToolRound.DispatchMany | max_ai/core/tool/dispatcher.py:96-136 | for every schedule, the round stops at the first batch that is cancelled or in which a call raises; its messages are the answers of the non-paused calls before that, in call order, whatever finished first; and what was in flight and is left running is what the schedule says |
| ToolRound.FlightsAreSafe | max_ai/core/tool/dispatcher.py:56-120 | at every moment of every schedule, the calls in flight are one call or only read-only ones, and at most `limit` |
| ToolRound.CompletedCallsFly | max_ai/core/tool/dispatcher.py:113-120 | every call of the batches that went well has been in flight |
| ToolRound.OnlyReadersRunOn | max_ai/core/tool/dispatcher.py:56-120 | a call left running by a round is read-only, and one of its siblings raised |
| InterruptedRound.AnswerUnanswered | max_ai/base/reasoning.py:568-581 | the messages appended and the records afterwards |
| InterruptedRound.AppendedIds | max_ai/base/reasoning.py:574-581 | the appended results answer distinct calls: exactly those not answered yet and not executing |
| InterruptedRound.OwedMessageIs | max_ai/base/reasoning.py:576-581 | the message a cut call is given: its own result when it had one, and otherwise a failure, which its record then holds as cancelled before its start |
| InterruptedRound.InterruptedRoundIsWholeIff | max_ai/base/reasoning.py:520-581 | for any choice of records handed over, the closed transcript is accepted, with one result per call, if and only if every call had its result or was handed over and is not executing |
| InterruptedRound.HandedOverRoundIsWholeIff | max_ai/base/reasoning.py:520-581 | where every call not handed over has its result, only executing calls are in the way |
| CutRounds.EmittedIsBacked | max_ai/core/tool/dispatcher.py:123-133 | every message a round emits carries a result that a dispatch of its call returned |
| CutRounds.AnsweredIsConsumed | max_ai/core/tool/dispatcher.py:123-133 | in every round an answered call has a consumed record |
| CutRounds.HandedArePending | max_ai/capabilities/reasoning/react/loop.py:354-358 | a round is handed exactly the calls not consumed when it begins |
| CutRounds.EveryRecordIsConsumed | max_ai/base/reasoning.py:520-581 | wherever a round is cut, first or resumed, and whatever its calls went through, closing it leaves every record consumed if and only if no unanswered call is executing |
| CutRounds.ClosedTranscriptAcceptedIff | max_ai/base/reasoning.py:520-581 | and the transcript accepted if and only if every call has its result, or was not consumed when the round began and is not executing |
| CutRounds.ClosedTranscriptAcceptedUnlessExecuting | max_ai/base/reasoning.py:520-581 | where nothing was consumed unanswered before the round began, the two conditions are one |
| CutRounds.CutRoundClosesIff | max_ai/base/reasoning.py:520-581 | the same condition for a whole round, given what was answered before it, how its dispatches ended and how far it got |
| OpenCalls.RaisingMiddlewareLeavesCallOpen | max_ai/core/tool/dispatcher.py:351-353 | a round whose tool_response middleware raises, closed with its record executing and a transcript that is not accepted |
| OpenCalls.RaisingSiblingLeavesCallOpen | max_ai/core/tool/dispatcher.py:113-120 | a round of two read-only calls, with its schedule, in which one raises while the other runs on, and whose closed transcript is not accepted |
| OpenCalls.StaleCallStaysUnanswered | max_ai/capabilities/reasoning/react/loop.py:354-358 | a resumed round after which every record is consumed and none executing, and whose closed transcript is not accepted |
| InterruptedRound.RunLeavesRecordSettled | max_ai/core/tool/dispatcher.py:146-353 | every run of dispatches leaves records in the form the closing step relies on |
| InterruptedRound.RoundEmitsDistinctResults | max_ai/core/tool/dispatcher.py:123-133 | however far a round got, its results answer distinct calls of the round, and exactly the answered ones |
| Stream.Accumulator.MergeToolCallChunk | max_ai/base/reasoning.py:959-998 | the accumulator after one fragment |
| Stream.AssemblyIsPerCall | max_ai/base/reasoning.py:959-998 | for any interleaving, each call has its own first non-empty name and its own arguments joined in order, and calls stand in first-appearance order |
| Stream.BuildToolCalls | max_ai/base/reasoning.py:1001-1037 | the built list is what building each call from its own fragments alone gives |
| Stream.ArgumentsAreKept | max_ai/base/reasoning.py:1019-1036 | arguments that parse are parsed, others are kept as they came, and a call without any has an empty object |
| Stream.InterleavingDoesNotMatter | max_ai/base/reasoning.py:959-1037 | two arrivals with the same fragments per call, however interleaved, build the same calls, each once, and the same list when the calls first appear in the same order |
| Stream.SameSetOfCalls | max_ai/base/reasoning.py:959-998 | and the same set of calls, in whatever order they appear |
| Transcript.Validate | max_ai/base/compaction.py:407-427 | accepts exactly the accepted windows; an error names the orphan result, or the calls left unanswered and where they were made |
| Transcript.BlockAccepted | max_ai/base/compaction.py:407-427 | one message with results after it is accepted exactly when each of its calls has exactly one result |
| Groups.GroupAtomicMessages | max_ai/core/compaction/groups.py:16-61 | the groups are the whole blocks of the transcript, in order |
| Groups.CutsIff | max_ai/core/compaction/groups.py:16-61 | there is one way to cut a transcript into whole blocks |
| Groups.GroupsConcatenate | max_ai/core/compaction/groups.py:16-61 | groups are not empty, concatenate to the transcript, and their sizes add up to its size |
| Groups.BlocksAreWellFormed | max_ai/core/compaction/groups.py:16-61 | every block of an accepted transcript is an accepted window by itself |
| Groups.AnySubsequenceOfBlocksIsAccepted | max_ai/core/compaction/groups.py:16-61 | any choice of whole blocks of an accepted transcript is accepted |
| Groups.AcceptedIffBlocks | max_ai/base/compaction.py:407-427 | a window is accepted exactly when it is a row of well-formed blocks |
| Groups.SplitRecentMessages | max_ai/core/compaction/groups.py:64-108 | old and recent messages put together are all messages; the cut is at a block, keeps the minimum, goes over the limit only for the minimum, and no longer suffix fits |
| Groups.CutIsUnique | max_ai/core/compaction/groups.py:64-108 | with positive block sizes those conditions leave only one cut |
| TokenBudget.Capacity | max_ai/core/compaction/budget.py:27-57 | whenever there is room, prompt, output, margin and live messages fill the window exactly |
| TokenBudget.ShareIs | max_ai/core/compaction/budget.py:78-88 | a share is its part of the capacity, rounded down, but at least one token of any capacity |
| TokenBudget.MarginAndPromptAre | max_ai/core/compaction/budget.py:45-50 | the margin is its part of the window, rounded down, and the prompt counts with its own size when that is known |
| TokenBudget.StrategyBudgetIs | max_ai/base/compaction.py:190-190 | history and the strategy's budget together fill the share that is kept, and a history beyond it leaves none |
| TokenBudget.ShareIsMonotone | max_ai/core/compaction/budget.py:60-88 | what is kept is never more than what triggers, and neither is more than the capacity |
| TokenBudget.NoThrashIff | max_ai/base/compaction.py:190-249 | every result within the strategy's budget silences the next check if and only if the history alone is within the threshold |
| Compaction.ShrinkKeepsShape | max_ai/base/compaction.py:295-322 | shrinking keeps roles, sources and call ids |
| Compaction.Prune | max_ai/base/compaction.py:257-293 | the pruned groups, block by block |
| Compaction.PrunedGroupsConcatenate | max_ai/base/compaction.py:257-293 | they are not empty, have the right sizes, come from one block each, and put end to end are what is left of the transcript |
| PruneBounds.NewestAreKept | max_ai/base/compaction.py:273-278 | the pruned groups end with the newest `min_keep_groups` groups, or all when there are fewer, exactly as they were |
| PruneBounds.WhatIsDropped | max_ai/base/compaction.py:279-283 | a message is dropped if and only if it is the harness's and its block is older than the newest groups and than the current turn; the others stay in order, shortened only when truncation is on and their block is older than the newest groups |
| PruneBounds.CurrentTurnIsKept | max_ai/base/compaction.py:280-281 | no message of the current turn is dropped |
| PruneBounds.ResultIsShortened | max_ai/base/compaction.py:295-331 | of a tool result only a text longer than the cap changes, to what its first tokens decode to and a hint |
| PruneBounds.ArgumentsAreShortened | max_ai/base/compaction.py:295-331 | of an assistant's message only text arguments longer than the cap change, and other messages not at all |
| Compaction.PruneKeepsAcceptance | max_ai/base/compaction.py:257-322 | pruning keeps an accepted transcript accepted when no droppable block mixes harness messages with others |
| Compaction.AnyChoiceAfterPruningIsAccepted | max_ai/base/compaction.py:192-211 | a strategy that keeps any choice of the pruned groups it is handed is never refused |
| Compaction.MixedBlockIsFatal | max_ai/base/compaction.py:280-281 | once a mixed block loses its harness messages nothing later makes the window acceptable again |
| Compaction.PruneAcceptedIff | max_ai/base/compaction.py:257-322 | with unique call ids, the pruned transcript is accepted if and only if no droppable block is mixed |
| Compaction.HarnessNamedToolBreaksWindow | max_ai/base/compaction.py:280-281 | with one or two groups kept (two is the default), an accepted transcript with a call of a tool named "harness" in an earlier turn, which pruning makes unacceptable |
| Compaction.ShouldCompact | max_ai/base/compaction.py:128-151 | over the limit exactly when history and messages together exceed the share of the capacity |
| Compaction.Compact | max_ai/base/compaction.py:153-225 | which of the four outcomes it comes to: unchanged while calls are pending, the pruned transcript exactly when that is under the limit, the strategy's window exactly when that is acceptable, and an error otherwise |
| Compaction.CompactedIsAccepted | max_ai/base/compaction.py:192-211 | a rewritten window is accepted, and a pruned one exactly when no droppable block is mixed |
| Compaction.CompactedIsQuiet | max_ai/base/compaction.py:190-225 | with a strategy that keeps to its budget, the next check finds nothing to do |
| Compaction.DroppingNeverFails | max_ai/base/compaction.py:192-225 | with a strategy that only drops whole groups, compacting an accepted transcript without mixed blocks never fails and returns an accepted window |
| Manager.EnvironmentManager.Acquire | max_ai/core/environment/manager.py:87-124 | the manager's state up to the hand-out, for every answer of the provider |
| Manager.EnvironmentManager.ReleaseLease | max_ai/core/environment/manager.py:122-158 | the state after a lease, however its body and its release ended |
| Manager.EnvironmentManager.DisconnectEntry | max_ai/core/environment/manager.py:206-216 | sync back, disconnect, clean and forget, or keep the session on a failure |
| Manager.EnvironmentManager.RetireEntry | max_ai/core/environment/manager.py:160-172 | idle expiry |
| Manager.EnvironmentManager.Close | max_ai/core/environment/manager.py:218-246 | every entry is emptied, or keeps its session and is recorded for another attempt |
| Manager.RetireOutcome | max_ai/core/environment/manager.py:160-172 | retiring one entry empties it or keeps and records it, and touches no other |
| ManagerRuns.StepKeeps | max_ai/core/environment/manager.py:87-246 | every acquire, release, expiry and close keeps the lease invariant |
| ManagerRuns.OneLeaseAtATime | max_ai/core/environment/manager.py:99-101 | in every run at most one lease per user is open, under the user's lock |
| HandOuts.HandsOutIff | max_ai/core/environment/manager.py:95-124 | in every run an open manager hands out a lease to a user without one if and only if the provider connects, recovers, syncs in or reconnects as the key's session and recorded failure require; to anybody else it does nothing |
| HandOuts.HandsOutSession | max_ai/core/environment/manager.py:108-124 | it hands out the session the key holds exactly when that was synced in, and otherwise a new one, the old having been reported lost |
| HandOuts.FailedAcquireKeeps | max_ai/core/environment/manager.py:108-121 | an acquire that fails leaves no lease or lock, and keeps the session and its recorded failure unless it was reported lost |
| HandOuts.LeaseEnds | max_ai/core/environment/manager.py:133-158 | in every run, what each end of a lease leaves: the lock given back, and the session idle, gone, kept with a recorded failure, or kept as it is |
| HandOuts.RetiresIff | max_ai/core/environment/manager.py:160-246 | an expiring or closed session is gone exactly when disconnecting it gets through, and otherwise kept with a recorded failure |
| HandOuts.TurnsIdleIff | max_ai/core/environment/manager.py:148-151 | a session turns idle exactly by a release with a successful sync back |
| HandOuts.SessionIsReused | max_ai/core/environment/manager.py:87-172 | while all goes well the same session is leased again, and at last expires with its changes in the workspace |
| HandOuts.ClosedForGood | max_ai/core/environment/manager.py:95-103 | once closed, a manager stays closed and hands out nothing any more |
| ManagerRuns.HandedOutOnlyWhenSynced | max_ai/core/environment/manager.py:108-124 | a session is handed out only after a successful sync in, with earlier changes back in the workspace unless a release was cut short |
| ManagerRuns.LeavesOnlySyncedOrLost | max_ai/core/environment/manager.py:133-216 | in every run a session that is no longer held had its changes synced back or was reported lost |
| ManagerRuns.OnlyTheProviderSays | max_ai/core/environment/manager.py:133-216 | a session counts as lost or synced only on the provider's word about that very session |
| ManagerRuns.ReleaseRecordsUnlessInterrupted | max_ai/core/environment/manager.py:133-158 | a release leaves unsynced changes unrecorded if and only if it was itself cancelled before its sync back |
| ManagerRuns.InterruptedReleaseIsForgotten | max_ai/core/environment/manager.py:153-158 | a run that ends with unsynced changes nobody has recorded |
| ManagerRuns.RecordedWithoutInterruption | max_ai/core/environment/manager.py:133-158 | in runs without such a cancellation every kept session with unsynced changes is recorded |
| Budget.RunState.OnRunStart | max_ai/capabilities/middleware/budget.py:167-180 | the task's state and whether it stops; `Admissions` says when |
| Budget.RunState.OnModelRequest | max_ai/capabilities/middleware/budget.py:187-198 | stops an exhausted task, otherwise counts the call |
| Budget.RunState.OnModelResponse | max_ai/capabilities/middleware/budget.py:200-212 | what the task and the store are charged |
| Budget.RunState.OnToolRequest | max_ai/capabilities/middleware/budget.py:214-224 | refuses and blocks, or counts the call |
| Admissions.StartStopsIff | max_ai/capabilities/middleware/budget.py:167-180 | a run stops before it starts exactly when the task's own budget or the user's tokens or costs are used up, or it is a new task and the user's tasks are |
| Admissions.NewTaskBeginsFromZero | max_ai/capabilities/middleware/budget.py:169-170 | a new task begins with nothing used, a resumed one goes on where it was |
| Admissions.RequestStopsIff | max_ai/capabilities/middleware/budget.py:194-198 | a model call is let through and counted exactly when nothing is used up |
| Admissions.ToolRefusedIff | max_ai/capabilities/middleware/budget.py:214-224 | a tool call is let through and counted exactly when, besides, tool calls are left; a refusal blocks the task |
| Admissions.BelowEveryLimit | max_ai/capabilities/middleware/budget.py:141-224 | a task below every limit is let through at every hook |
| Admissions.CallsStayWithin | max_ai/capabilities/middleware/budget.py:187-224 | in no run does a task make more model or tool calls than it may |
| Admissions.TaskCountsItsOwn | max_ai/capabilities/middleware/budget.py:200-212 | in every run a task counts exactly the tokens and costs of its own answers since it began |
| Admissions.LateTaskIsStopped | max_ai/capabilities/middleware/budget.py:172-180 | a new task that reads the store when the limit of tasks is reached stops and is not counted |
| Admissions.TasksAreBounded | max_ai/capabilities/middleware/budget.py:172-180 | in every run the number of tasks goes over its limit by at most the new tasks that had read the store when it was reached |
| BudgetRuns.ExhaustionLasts | max_ai/capabilities/middleware/budget.py:141-224 | a task that has used up its token, cost or model-call budget or the quota, or had a tool call refused, starts no further model or tool call until a new task begins, in every interleaving, resumes and cancellations included |
| BudgetRuns.RefusalEndsTheTask | max_ai/capabilities/middleware/budget.py:214-224 | a refused tool call ends the task for good, even when no counter of its own is used up |
| BudgetRuns.StepKnowsThePast | max_ai/capabilities/middleware/budget.py:158-180 | what a task knows of the shared total is never ahead of it and never goes back |
| BudgetRuns.StepSpendsAllowance | max_ai/capabilities/middleware/budget.py:141-224 | once the quota is reached, no step of any task raises a task's late charges plus what it may still add |
| BudgetRuns.OvershootIsBounded | max_ai/capabilities/middleware/budget.py:141-212 | the same over every interleaving, with tasks cancelled at any await |
| BudgetRuns.AtMostOneMoreCharge | max_ai/capabilities/middleware/budget.py:141-212 | each task adds at most one more model-call charge, and one that starts or resumes afterwards adds none |
| BudgetRuns.AllowanceCanBeSpent | max_ai/capabilities/middleware/budget.py:187-212 | the bound of one is met |
| BudgetRuns.TotalIsEveryCharge | max_ai/core/model/quota.py:18-23 | in every interleaving the stored total is every charge of the run |
| Budget.PlusIs | max_ai/core/model/quota.py:18-23 | adding up counts tokens, costs and tasks alike |
| Admissions.EveryTaskIsCounted | max_ai/capabilities/middleware/budget.py:179-180 | in every interleaving the store counts exactly the new tasks that were let in |
| Embedding.CoreEmbedding.Embed | max_ai/base/embedding.py:56-72 | whether it succeeds, and how many misses are sent and stored, for every series of replies; on success the backend's vector for each text, each distinct miss sent once, and a cache of correct vectors for exactly the most recently used texts |
| Embedding.FetchedOkIff | max_ai/base/embedding.py:63-66 | a call succeeds if and only if every batch of its misses is answered with its own count |
| Embedding.BrokenOffAt | max_ai/base/embedding.py:63-66 | of a call that fails at its t-th batch, everything up to and with that batch was sent, and everything before it and what the backend gave for it was stored |
| Embedding.MissesAreDistinct | max_ai/base/embedding.py:62-62 | the texts sent are the misses, each once |
| Embedding.ByLastUseConcat | max_ai/base/embedding.py:68-69 | later uses move their texts behind everything older and leave the rest in order |
| Embedding.MissesLeaveNoTrace | max_ai/base/embedding.py:63-69 | inserting the misses first does not affect the final recency order |
| Embedding.TrimmedCacheIsTheNewest | max_ai/base/embedding.py:70-71 | a trimmed cache holds exactly the `cache_size` most recently used texts |
| Component.Compact | max_ai/base/component.py:450-472 | the compact form, or a failure exactly when a component that is kept cannot be loaded |
| Component.CompactDropsDefaults | max_ai/base/component.py:462-472 | the compact form of a model keeps exactly the fields that are not at their default |
| Component.CompactDropsMetadata | max_ai/base/component.py:458-461 | that of a component keeps its provider and what is left of its config, and no metadata |
| Component.FieldsRoundTrip | max_ai/base/component.py:462-472 | dropping fields at their defaults is undone by the reload exactly when each dropped default reloads from its own dump and what is kept round-trips |
| Component.ComponentRoundTrip | max_ai/base/component.py:458-461 | the same for a nested component without its metadata |
| Component.RestorableIffCurrent | max_ai/base/component.py:273-287 | where no class overrides the migration and every default reloads from its own dump, the condition below comes down to versions |
| Component.CompactRoundTripIff | max_ai/base/component.py:257-308 | for dumps of the shape `serialize` writes (configs are dicts, dumped models do not look like components), the compact form reloads to the same configuration as the full dump if and only if every kept component dumped by an older version of its class migrates to what its compact config gives, and each dropped default reloads from its own dump |
| Component.OlderComponentLoadsDifferently | max_ai/base/component.py:279-287 | a component of version 1 whose class is at version 2: both forms load alike exactly when the migration changes nothing, and not when it raises as by default |

## Left out

- Sync: symlink and path checks, size caps, and files changing between hashing and copying; a path is never both a file and a directory, and hashes do not collide.
- Sync.Plan: the sorted order of the two lists, and which of several conflicting names is reported.
- Remote: the per-user lock inside one process; in `RemoteRuns` a process has one transfer under way at a time and edits files only inside its runs.
- Remote.RunOnce: a cache with edits left by a run that broke off, and transfers that overlap; both are in `RemoteRuns`.
- Skills: several skills in one directory; each is its own `SkillDirectory`.
- Policy: glob matching of names and the tools' own pattern matching, which are functions the model takes as given; a rule ending in a newline; a subject of white space only, where the code raises an IndexError.
- ToolCall: timestamps, approval reasons, the text of questions, errors and events, and the per-question form of an answer; the execution lease a tool takes.
- ToolRound: the execution lease a batch shares, and tool events between messages.
- ToolRound.DispatchMany: what the calls left running after an exception do beside a later round; answers of their batch are lost with the round, as in the code, and `AnswerUnanswered` restores them from the records.
- InterruptedRound: how a result's text is cut to size.
- Stream: the JSON parser, which is a function the model takes as given.
- Transcript: message contents other than text and text arguments.
- Compaction: the tokenizer and the wording of hints, which are functions the model takes as given; concrete strategies and those that override the over-limit check; the memory update; the cached token count of a message.
- Manager: retries and their delays (a provider call is its final answer), what happens inside the idle timer, sessions refused because they belong to another workspace, and an idle expiry cancelled while it waits for its lock.
- Manager.EnvironmentManager.Close: acquires that come between two entries; `ManagerRuns` covers them as separate steps.
- Budget: time budgets, the change of period, floating-point rounding of costs, configurations without a quota store, and missing prices.
- Embedding: overlapping calls on one cache, and the model's part of the cache key.
- Component: unions of several models in one annotation, a field whose model itself looks like a component, Python's `True == 1` when a value is compared to a default, what a class's own migration does (a function the model takes as given), and `allow_providers`.
- The model call, the reasoning loop, middleware other than budgets, session stores, the MCP client and the user interfaces: plumbing, or only short one-function claims.
