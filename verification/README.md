# Arcane, the stateful core: a model and its proofs

Arcane runs language-model agents on projects: it asks for approval before dangerous actions,
keeps a budget, compacts conversations, runs tools on remote servers, keeps a history per project
and learns recurring task patterns.  This project models eight of its state machines and
transformations and proves what each is for, over every input, every run or every reachable state.

| file | what it covers |
|---|---|
| `Approval.dfy` | the approval protocol: requests, decisions, one-time tokens, expiry, audit log |
| `Redaction.dfy`, `Cards.dfy`, `Luhn.dfy` | span merging, right-to-left redaction, detection, card numbers |
| `BudgetLedger.dfy` | spend, limits in three scopes, effective status, the check before a run |
| `BudgetDowngrade.dfy` | cost estimates and the search for a cheaper model |
| `BudgetTotals.dfy` | the single-pass dashboard |
| `BudgetStore.dfy` | recording, trimming, saving and loading the ledger |
| `BudgetForecast.dfy` | the check before a run against the status once it is recorded |
| `BudgetAlerts.dfy` | threshold callbacks and their resets |
| `Compaction.dfy`, `CompactionSummaries.dfy` | context compaction, and which summaries survive it |
| `TokenEstimate.dfy` | the token estimate |
| `AgentEndings.dfy` | how a run ends, read from the environment alone |
| `AgentRun.dfy` | the run graph and the agent loop against an arbitrary environment |
| `ShellQuote.dfy`, `BatchOutput.dfy`, `LinePatch.dfy` | shell quoting, batch output, line patches |
| `ProjectHistory.dfy` | rotation, run costs, rollback |
| `Promotion.dfy` | promotion of task patterns |
| `RateLimiter.dfy` | the sliding-window limiter |

Objects that the program updates in place are classes (`Gate`, `Controller`, `Alerts`, `Compactor`,
`RunGraph`, `AgentLoop`, `Project`, `Store`, `Limiter`).  Each method is proved to take the object from
its old abstract state to the one given by a function; the lemmas then speak about runs of these
functions, or compare them with an independent reference over the full history.

Conventions:

- Amounts of money are whole numbers of units of 1e-8 USD.  All prices of the program are whole in
  that unit, so `0.80`, `0.95` and `1.00` of a limit are compared exactly.
- Clock reads, generated ids, regular expressions, the outcome of model and tool calls, cancel
  requests and failed writes are parameters.  Lemmas about runs assume a clock that does not run
  backwards and ids that are drawn once.
- The HMAC is taken to be injective, so a digest is the signed message itself; the injectivity of that
  message is proved.

## Where the code differs from its documentation

The model follows the code.  Each point but the last, which is about Python itself, is proved by the lemma
named.

- Compaction is documented to return a shorter list.  It does so exactly when at least two old
  messages are not tool errors, and makes the list longer when all of them are (`CompactSize`,
  `CompactionGrows`).
- Tool-call groups are documented to stay together.  Preserved errors are separated from the message
  that called the tool (`GroupingSurvivesIffNoErrors`, `CompactionDetachesError`).
- A summary does not take over what the one before it held (`SystemLeavesNoTrace`).  In every list that
  does not begin with a tool result, and the agent loop begins with a user message, only the newest
  summary is left, and the first one if the list has no system message of its own in front
  (`SummariesKept`).  A list that begins with tool results can hold one more (`SummariesInRun`,
  `OlderSummaryStays`).
- A compactor that keeps no recent message raises IndexError (`CompactMessages`).  So does a limiter
  with a limit of zero or less, on every call (`EmptyWindowIff`).
- Manus credits are charged twice without an override and once on top of one
  (`RecordedIsEstimateIffNoCredits`).  So a run that passed the check before it can have stopped its task
  once it is recorded (`CreditStopsUnforeseen`, `ForecastHoldsIff`).
- Trimming the ledger can take a stopped project back to OK (`TrimCanUnstop`,
  `StoppedAfterRecordIff`), and leaves files of other projects ahead of the ledger
  (`LedgerMatchesFileIff`, `TrimLeavesFileAhead`).  The next record of such a project rewrites its file
  without the trimmed entries (`FileCompleteIff`).
- Downgrade tiers are described as ordered strictly by descending cost, and suggestions as cheaper.
  The step from gpt-5.4 to claude-sonnet-4.6 in review and code work costs more for every request with
  input tokens, and the suggestion for gpt-5.4-nano, which is in no tier, for requests of mostly input;
  nothing else does, except that a run without a language model is offered one (`StepRaisesCostIff`,
  `DearGptStep`, `DearNanoStep`).  The photo tier holds no model with a token price
  (`PhotoNeverDowngrades`).
- A reset of warnings takes any id; one with a colon, such as `a:b`, clears flags of tasks of project `a`
  (`ResetReachesIntoProject`).
- "Tests passed on every successful run" is evaluated over the newest fifty outcomes only
  (`UntestedSuccessIsForgotten`, `PromotionBreaksCriterionIff`).
- `approve_candidate` is documented to return whether it triggered promotion.  It also returns true for a
  pattern promoted before (`ApprovalAnswerIff`, `ApprovedAgain`).
- `add_run_with_cost` promises both or neither.  `BothOrNeitherIff` says exactly when it keeps that.  It
  does not when PROJECT.md cannot be written after the run was added (`ViewFailureKeepsRun`), when the
  state file cannot be written while the list is full (`FailedWriteKeepsHistoryIff`), when the cost is
  refused and the rollback cannot be written (`RollbackFailureKeepsRun`), or when it is refused under
  the id of a run that stays live (`ReusedIdLosesRun`).
- A refused charge on a full list archives a cost record that also stays live, after which total and
  records differ by it (`BooksBalanceIff`, `FailedChargeRecords`, `RefusedChargeUnbalances`).
- A line patch rewrites the line ends outside its range if they hold carriage returns
  (`OutsideKeptIffNoReturn`, `OutsideReturnIsLost`), and new text with other line boundaries than newline
  is split further when the file is read again (`PatchReplacesLines`, `OddBreakSplitsLine`).
- A project id may end in a newline, because `$` matches before it; that is harmless for the keys
  built from ids (`ValidIdHasNoColon`).
- A run stopped by an idempotency hit stays ASSIGNED (`EndsIffNoHit`).
- `AuditEntry` (core/security.py:508) lacks its `@dataclass` line, so as written building an entry
  raises TypeError and no audited call gets through.  The model takes the record it is declared to be;
  everything said about the audit log, in `AuditShowsUses` and in the operations of `Gate`, is about
  that reading.

## Model

| member | source | states |
|---|---|---|
| Approval.ClassifyIsHighest | core/security.py:222-231 | the level of an action is the highest of all matching patterns, and the description that of the first pattern reaching it |
| Approval.LevelIs | core/security.py:222-231 | an action is CRITICAL, HIGH or MEDIUM if and only if a pattern of that level matches it and none of a higher one |
| Approval.DigestBindsContext | core/security.py:1266-1269 | contexts with NUL-free project and server share a digest if and only if action, project and server agree (no server and the empty server being one) |
| Approval.DigestCollidesWithNul | core/security.py:1266-1269 | with a NUL in the project id two different contexts share a digest |
| Approval.Gate.ClassifyAction | core/security.py:222-231 | the loop over the pattern table computes the classification |
| Approval.Gate.ReapExpired | core/security.py:432-449 | expired requests go with their decisions, orphaned decisions go, everything else and the audit log stay |
| Approval.Gate.ValidateToken | core/security.py:373-430 | whole new state and outcome for each of: unknown token, rejected, orphaned, expired, other context, accepted |
| Approval.Gate.Check | core/security.py:233-307 | whole new state, audit entry and outcome of a check, for every level, with and without a token |
| Approval.Gate.Decide | core/security.py:309-361 | whole new state, audit entry and outcome of a decision, including blank user, unknown and expired requests |
| Approval.Gate.Pending | core/security.py:363-369 | reaps, then lists each pending request of the project asked for once, newest first |
| Approval.StepViewOf | core/security.py:233-449 | what a step does to one request id depends only on what was known of that id |
| Approval.PassesIffApproved | core/security.py:194-449 | over every run: a gated action goes ahead on a token if and only if an earlier request had that id and the same digest, was approved since, never rejected or used since, and is within its 30 minutes |
| Approval.TokensAreOneTime | core/security.py:207-213 | no token lets two actions through, in any run |
| Approval.RejectionRevokes | core/security.py:343-348 | once a request is rejected, even after an approval, no later action goes ahead on it |
| Approval.MismatchDoesNotConsume | core/security.py:413-418 | presenting a live token for another context is denied and leaves the token as it was |
| Approval.GateIsExact | core/security.py:233-307 | over every run, each check lets its action go ahead if and only if no HIGH or CRITICAL pattern matches it, or it has a token that an earlier request of the same digest justifies |
| Approval.NoTokenIsRefused | core/security.py:274-307 | a dangerous action without a token is answered with ApprovalRequired under the drawn id, and exactly its request is pending then, for 30 minutes |
| Approval.TokenAnswer | core/security.py:373-430 | which of its four answers a presented token gets, over every run, from the history of its request |
| Approval.ForeignTokenAnswer | core/security.py:373-430 | a token that is no earlier request's id is invalid |
| Approval.DecisionAnswer | core/security.py:309-361 | over every run a decision takes effect if and only if the user is named, the request was neither rejected nor used before and is within its 30 minutes |
| Approval.BlankAscii | core/security.py:323-324 | which ASCII names count as none |
| Approval.CheckLogs | core/security.py:255-305 | the audit entries of a check, exactly, for each level and outcome |
| Approval.DecideLogs | core/security.py:350-360 | the audit entry of a decision, exactly if it takes effect |
| Approval.AuditShowsUses | core/security.py:420-430 | the audit log of any run holds a use of a token if and only if an action went ahead on it |
| Luhn.LuhnCheck | core/security.py:1277-1287 | the loop computes validity |
| Luhn.SingleErrorCaught | core/security.py:1277-1287 | every change of one digit of a valid number, of any length, is rejected |
| Luhn.SwapCaught | core/security.py:1277-1287 | swapping neighbours of a valid number goes unnoticed if and only if they are equal or are 0 and 9 |
| Luhn.CheckDigitIsUnique | core/security.py:1277-1287 | every prefix has exactly one check digit that makes it valid |
| Luhn.ZerosAreValid | core/security.py:1277-1287 | a number of zeros is valid |
| Redaction.MergeSpans | core/security.py:1319-1330 | the loop computes the merge of the sorted spans |
| Redaction.MergeFacts | core/security.py:1319-1330 | the merge is sorted and strictly separated, covers exactly the positions of its input, contains every input span, and each result begins where an input did |
| Redaction.Redact | core/security.py:897-907 | the right-to-left splice equals the left-to-right replacement of the merged spans |
| Redaction.RedactIsMask | core/security.py:897-907 | every maximal covered run becomes one placeholder and every uncovered character stays in order, if and only if the placeholder is empty or no matched span is empty and apart from all nonempty ones |
| Redaction.RedactionDependsOnCoverage | core/security.py:897-907 | nonempty spans over the same positions redact alike, whatever their order, overlaps and duplicates |
| Redaction.CheckCard | core/security.py:869-873 | a candidate is a card if and only if it has 13 to 19 digits, a valid check digit and a known issuer prefix |
| Redaction.Scan | core/security.py:849-881 | the matches of all detectors, then the cards, stably sorted by start |
| Redaction.HasPii | core/security.py:883-895 | the early-exit search answers as the full scan does |
| Redaction.RedactText | core/security.py:897-907 | scan, merge and splice together: the result is the text with each maximal matched run replaced, with the exact condition |
| Cards.KnownIssuerIff | core/security.py:1290-1308 | comparing prefixes as text tests exactly the issuer ranges as numbers |
| Cards.ReportedIffCard | core/security.py:867-879 | a candidate is reported as a card if and only if it has 13 to 19 digits, of which the last is the check digit of the others and the first ones are an issuer's |
| Cards.CardIsCovered | core/security.py:897-907 | every position of such a candidate is redacted |
| Cards.CoveredLeavesNoTrace | core/security.py:897-907 | texts that differ in covered positions alone are redacted to the same |
| Cards.MistypedCardIsNone | core/security.py:869-873 | a card number with one digit changed is not reported as a card |
| Cards.ReportsExactly | core/security.py:849-881 | what a scan reports, exactly: the parts of the text that some pattern matched, under its category, and the candidates that are card numbers |
| Cards.ScanOrder | core/security.py:881 | the matches come by ascending start, those with the same start in the order in which they were found |
| BudgetLedger.RoundMicroBounds | core/budget_controller.py:1033 | rounding to a micro-dollar moves an amount by at most half of one, and not at all if and only if it is whole |
| BudgetLedger.SpentSteps | core/budget_controller.py:604-624 | what one more entry adds to a task, a project and the whole: its cost if it is of that task, of that project and month, of that month, and nothing otherwise |
| BudgetLedger.CountSteps | core/budget_controller.py:639-655 | the same for the number of entries a status reports |
| BudgetLedger.OthersUnaffected | core/budget_controller.py:693-723 | an entry of another task never changes a task's status, one of another project or month a project's, one of another month the global one |
| BudgetLedger.LevelOf | core/budget_controller.py:661-691 | the five levels of one scope by 80, 95 and 100 percent of its limit |
| BudgetLedger.EffectiveLevel | core/budget_controller.py:725-742 | the level of the effective status from the three amounts and limits |
| BudgetLedger.StoppedIffReached | core/budget_controller.py:661-742 | the status is STOPPED if and only if some limit is reached, and the scope is the first that is |
| BudgetLedger.PredictorIsExact | core/budget_controller.py:753-783 | "would exceed" holds if and only if the status is STOPPED once an entry of that cost is appended, and names the very scope reported then; for every ledger and all limits |
| BudgetLedger.ExceedsIsMonotone | core/budget_controller.py:753-783 | a dearer run is never let through where a cheaper one is stopped |
| BudgetLedger.EffectiveIsFirstWorst | core/budget_controller.py:725-742 | the effective status is the most severe of the three scopes, ties going to the narrowest |
| BudgetLedger.CanRunIffBelow95 | core/budget_controller.py:744-747 | a run may start if and only if no scope with a positive limit has reached 95 percent of it |
| BudgetDowngrade.WalkSteps | core/budget_controller.py:861-920 | suggestions follow a walk through the tier to its end, and the walk never comes back to a model |
| BudgetDowngrade.AutoDowngrade | core/budget_controller.py:922-972 | the loop with its visited set terminates for all tables, what it returns fits and what it names as exceeding exceeds; for tiers without duplicates it finds the first model on the walk that fits |
| BudgetDowngrade.FirstFitDecidedAt | core/budget_controller.py:922-972 | the outcome is decided at one position of the walk, all models before it exceeding a limit |
| BudgetDowngrade.DowngradeIsCheaper | core/budget_controller.py:922-972 | a returned model fits all three limits and is strictly cheaper for this very request than every model tried before it, sorted tiers or not |
| BudgetDowngrade.ExceededIffAllExceed | core/budget_controller.py:922-972 | BudgetExceededError is raised if and only if every model on the walk is priced and exceeds a limit |
| BudgetDowngrade.PreCheckAgrees | core/budget_controller.py:814-856 | the check before a run says "fits" if and only if the search keeps the requested model, and suggests the second model of the walk otherwise |
| BudgetDowngrade.ArcaneTiersDistinct | core/budget_controller.py:161-193 | no tier of the program holds a model twice |
| BudgetDowngrade.StepRaisesCostIff | core/budget_controller.py:861-920 | for every model, category and request that can be priced, the suggested model costs more for that request if and only if it is claude-sonnet-4.6 for gpt-5.4 with input tokens, deepseek-v3.2 for gpt-5.4-nano with 8 times the input above 83 times the output, or a model for a run that uses none |
| BudgetDowngrade.DearGptStep | core/budget_controller.py:161-193 | gpt-5.4 is sent to claude-sonnet-4.6 in exactly review and code work |
| BudgetDowngrade.DearNanoStep | core/budget_controller.py:881-902 | gpt-5.4-nano is sent to deepseek-v3.2 in all work but photos |
| BudgetDowngrade.ReviewTierIsNotSorted | core/budget_controller.py:161-193 | a million input tokens cost more after either of these steps |
| BudgetDowngrade.PhotoNeverDowngrades | core/budget_controller.py:161-193 | in photo work no request is ever moved to another model |
| BudgetDowngrade.EstimatesAdd | core/budget_controller.py:785-812 | the estimate of two plans together is the sum of their estimates |
| BudgetDowngrade.UnitEstimates | core/budget_controller.py:540-598 | one token, image or credit is estimated at its price |
| BudgetDowngrade.TokenErrors | core/budget_controller.py:540-566 | when pricing tokens fails, and how |
| BudgetDowngrade.EstimateFails | core/budget_controller.py:785-812 | when an estimate fails, and how: tokens, then images, then credits, each only if there are any |
| BudgetDowngrade.OutsideSuggestion | core/budget_controller.py:881-902 | a model outside the tier is sent to the first candidate cheaper in total, one without a price to the first of all |
| BudgetTotals.MakeDashboard | core/budget_controller.py:1100-1145 | one pass computes the total and the four groupings that separate filters define |
| BudgetTotals.TotalsAt | core/budget_controller.py:1107-1128 | a key is present if and only if some entry has it, and holds the sum over those entries |
| BudgetTotals.TotalsConserve | core/budget_controller.py:1107-1128 | however entries are grouped, the groups add up to the filtered sum |
| BudgetTotals.TaskKeyInjective | core/budget_controller.py:69 | `project:task` names one project and one task, because project ids hold no colon |
| BudgetTotals.TaskKeyCollides | core/budget_controller.py:69 | with a colon in a project id two tasks would share a key |
| BudgetTotals.BreakdownsAddUp | core/budget_controller.py:1100-1145 | the total is the month's global spend, and the project, model, task and category lines each add up to it |
| BudgetTotals.DashboardNext | core/budget_controller.py:1114-1128 | what one more entry changes on a dashboard, exactly: nothing if it is of another month or project, else total, number of entries and the lines of its project, model, task and category |
| BudgetTotals.ProjectLine | core/budget_controller.py:612-619 | the line of a project is the amount its monthly limit is checked against |
| BudgetTotals.TaskLine | core/budget_controller.py:1100-1145 | the line of a task counts the entries of that project and task in the month, and no others |
| BudgetTotals.OneProjectAgrees | core/budget_controller.py:1100-1145 | the dashboard of one project agrees with that project's line in the overall one |
| BudgetStore.ValidIdHasNoColon | core/budget_controller.py:284-289 | an accepted project id holds no colon |
| BudgetStore.RecordedIsEstimateIffNoCredits | core/budget_controller.py:1008-1020 | without an override the recorded cost is the estimate plus the credits once more, so it equals the estimate if and only if there are none |
| BudgetStore.OverrideIsCharged | core/budget_controller.py:1008-1033 | an amount passed in is recorded with the credits on top, to the nearest micro-dollar |
| BudgetStore.RecordRefused | core/budget_controller.py:978-1020 | when a record is refused, and how |
| BudgetStore.RecordedAsReported | core/budget_controller.py:1022-1034 | the usage is stored as it was reported |
| BudgetStore.ProjectIdIs | core/budget_controller.py:69 | which project ids are accepted, by length and character codes |
| BudgetStore.KeepIsSuffix | core/budget_controller.py:1052-1059 | in record-only runs the ledger is a suffix of the full history, of exactly known length, never above 10 000 |
| BudgetStore.KeepConserves | core/budget_controller.py:1052-1059 | over any filter, the recorded total is what is in memory plus what was trimmed |
| BudgetStore.RecordLowersIffTrimmed | core/budget_controller.py:1052-1059 | recording lowers a reported sum if and only if the trim drops more than the new entry adds |
| BudgetStore.TrimCanUnstop | core/budget_controller.py:1052-1059 | a free entry on a full ledger takes a stopped project back to OK |
| BudgetStore.StoppedAfterRecordIff | core/budget_controller.py:1052-1059 | a limit stops after a record if and only if it is positive and reached by the spend before, less what the trim drops, plus the new cost |
| BudgetStore.DriftIsBounded | core/budget_controller.py:1033 | stored costs differ from exact ones by at most half a micro-dollar per entry, over any number of entries |
| BudgetStore.Controller.SetLimits | core/budget_controller.py:406-418 | limits given replace, limits absent keep, other projects are untouched |
| BudgetStore.Controller.Record | core/budget_controller.py:978-1050 | entry, ledger and file after a record, or the error, for every kind of usage |
| BudgetStore.Controller.MaybeTrimEntries | core/budget_controller.py:1052-1059 | beyond 10 000 entries exactly the newest 8 000 stay |
| BudgetStore.Controller.SaveProject | core/budget_controller.py:469-501 | the file holds the project's limits, entries, total and per-model amounts; other files are untouched |
| BudgetStore.Controller.LoadProject | core/budget_controller.py:429-467 | the project's entries are replaced by the readable ones of its file, the limits by the file's; other projects stay |
| BudgetStore.Controller.RemoveProject | core/budget_controller.py:437-441 | exactly the entries of other projects stay, in order |
| BudgetStore.SaveLoadKeepsEntries | core/budget_controller.py:429-501 | save then load changes no project's entries, their order or limits |
| BudgetStore.SaveLoadKeepsSums | core/budget_controller.py:429-501 | nor any sum over the ledger |
| BudgetStore.SecondLoadIsNoOp | core/budget_controller.py:429-467 | loading twice is loading once, whatever the file holds |
| BudgetStore.LoadWithoutFileDrops | core/budget_controller.py:429-467 | loading a project without a readable file empties its part of the ledger and no other |
| BudgetStore.LoadedLimits | core/budget_controller.py:461-467 | the limits after a load, scope by scope, and no change for other projects |
| BudgetStore.LedgerMatchesFileIff | core/budget_controller.py:429-501 | over any run of auto-saved records, saves and loads, the ledger holds a final part of what is in a project's file, and all of it if and only if no trim dropped one of its entries since it was last recorded, saved or loaded |
| BudgetStore.TrimLeavesFileAhead | core/budget_controller.py:1052-1059 | a run of 10 001 records after which a project has an entry in its file and none in the ledger |
| BudgetStore.FileCompleteIff | core/budget_controller.py:469-501 | over any run, a project's file holds a final part of all entries ever recorded for it, and all of them if and only if no record or save rewrote it after, or while, a trim dropped one that was still in it |
| BudgetStore.SavedModelsAddUp | core/budget_controller.py:469-501 | the per-model amounts in a saved file add up to its total, before rounding |
| BudgetStore.SavedDocument | core/budget_controller.py:469-501 | a saved file, exactly: the project's entries and limits, what they cost together and per model |
| BudgetForecast.ExceedsIffFills | core/budget_controller.py:753-783 | one number, the least that is left in any scope, decides the check before a run |
| BudgetForecast.ForecastHoldsIff | core/budget_controller.py:978-1059 | a run that was checked and recorded as planned: the warning is decided by the estimate, STOPPED by the stored cost (credits once more, rounded) against the ledger without what is trimmed; untrimmed, they agree if and only if the room does not lie between the two costs |
| BudgetForecast.CreditStopsUnforeseen | core/budget_controller.py:1008-1020 | a run of one Manus credit that the check lets through and that has stopped its task once recorded |
| BudgetAlerts.Alerts.CheckThresholds | core/budget_controller.py:1061-1094 | which callback runs, and the flags afterwards |
| BudgetAlerts.Alerts.ResetWarnings | core/budget_controller.py:1151-1163 | for every task and level: notified afterwards if and only if it was and the reset does not cover the task |
| BudgetAlerts.PrefixCovers | core/budget_controller.py:1151-1163 | for any reset id, its prefix matches the key of a task if and only if it is the task's project, or that project, a colon and the start of the task up to a colon |
| BudgetAlerts.PrefixIsProject | core/budget_controller.py:1151-1163 | without a colon in the id, the prefix matches that project's keys and no others |
| BudgetAlerts.ResetReachesIntoProject | core/budget_controller.py:1151-1163 | a reset of `a:b` clears the flag of task `b:c` of project `a` and leaves that of task `c` |
| BudgetAlerts.FlaggedIffAlerted | core/budget_controller.py:1061-1094 | over any run with any resets, a level is silenced for a task if and only if the task reached it since the last reset covering it |
| TokenEstimate.EstimateBounds | core/context_manager.py:31-56 | a nonempty text of t characters is estimated at t/4 to t/2 tokens and at least one, with the extremes for no and only Cyrillic |
| TokenEstimate.EstimateJoin | core/context_manager.py:31-56 | joining two texts costs at most one token over their separate estimates |
| TokenEstimate.EstimateJoinIsTight | core/context_manager.py:31-56 | the extra token is needed |
| TokenEstimate.EstimateIs | core/context_manager.py:31-56 | the estimate, exactly: the whole part of t*t / (4t - 2c), at least one, and nothing for no text |
| TokenEstimate.CyrillicBlock | core/context_manager.py:31-56 | the characters U+0400 to U+04FF count as Cyrillic |
| Compaction.Compactor.CompactMessages | core/context_manager.py:189-360 | new list, counters, and the IndexError of a compactor that keeps nothing |
| Compaction.Compactor.FindSplit | core/context_manager.py:215-236 | the loop finds the split point |
| Compaction.Compactor.CollectParts | core/context_manager.py:238-287 | the loop collects the summary parts and, in order, exactly the tool errors |
| Compaction.Compactor.CollectFindings | core/context_manager.py:296-322 | the loop collects the written files and the findings |
| Compaction.SplitFacts | core/context_manager.py:215-234 | the tail has at least `keep_recent` messages, does not begin with a tool result unless it is everything, and what is pulled in beyond that is one tool group and at most one more caller |
| Compaction.SplitExact | core/context_manager.py:215-234 | the split point, exactly: the last message not after the first of the newest `keep_recent` that is no tool result, or the caller right in front of it |
| Compaction.TailStaysGrouped | core/context_manager.py:215-234 | a list in which every tool result follows its caller is cut between groups: both sides are such lists |
| Compaction.CompactKeepsErrors | core/context_manager.py:280-281 | compaction keeps every tool error, unchanged and in order |
| Compaction.RunKeepsErrors | core/context_manager.py:189-360 | over any run of appends and compactions the tool errors in the list are exactly those ever appended, in order |
| Compaction.IsErrorIff | core/context_manager.py:269-279 | a message counts as an error if and only if it is a tool result with "ERROR" anywhere or "error" in any case within its first 50 characters |
| Compaction.CompactKeepsReports | core/context_manager.py:280-281 | compaction keeps every message of that kind, unchanged and in order |
| Compaction.RunKeepsReports | core/context_manager.py:189-360 | and so does every run of appends and compactions |
| Compaction.SummaryEntries | core/context_manager.py:238-287 | the summary holds exactly one entry for each contributing message, in order, with its text up to 300, 200 or 100 characters or the tools it called |
| Compaction.SummaryFiles | core/context_manager.py:303-316 | the files of a summary are exactly the paths that some old call wrote, edited or created |
| Compaction.FindingIs | core/context_manager.py:317-322 | a finding is the first line, up to 200 characters, of an assistant message of more than 50 that does not begin with a bracket |
| Compaction.SummaryRest | core/context_manager.py:324-349 | count and number of a summary, and the last five findings |
| Compaction.TextJoins | core/context_manager.py:269-275 | the text of a multimodal message is that of its parts, joined by blanks |
| Compaction.CompactSize | core/context_manager.py:351-352 | exact length of the result; shorter if and only if two old messages are not errors, longer if and only if all are; the tail is a suffix of at least `keep_recent` messages |
| Compaction.CompactedIff | core/context_manager.py:194-195 | a list is compacted if and only if it has more than `keep_recent` + 2 messages, and then a summary with the right number stands in front |
| Compaction.CompactionGrows | core/context_manager.py:215-236 | a list of a caller and three results, keeping one, gains a message |
| Compaction.GroupingSurvivesIffNoErrors | core/context_manager.py:351-352 | tool results stay with their callers if and only if no old message is a tool error |
| Compaction.CompactionDetachesError | core/context_manager.py:351-352 | a well-grouped list that is not after compaction |
| Compaction.SystemLeavesNoTrace | core/context_manager.py:242-287 | an earlier summary in the old part leaves no trace in the new one |
| Compaction.SecondSummaryIsForgotten | core/context_manager.py:208-236 | one compaction behind a system message in front: the summary next to it is dropped and leaves only its count in the new one |
| CompactionSummaries.FrontStaysIff | core/context_manager.py:221-232 | a summary in front of the body survives if and only if all messages behind it up to the kept ones are tool results |
| CompactionSummaries.SummariesKept | core/context_manager.py:189-360 | over any run in which the first message, behind a leading system message, is no tool result: of all summaries made the list holds exactly the newest, and the first if it has no such system message |
| CompactionSummaries.SummariesInRun | core/context_manager.py:189-360 | over any run, also of lists that begin with tool results: which summary numbers are in the list, given where the compactions split; never more than three |
| CompactionSummaries.OlderSummaryStays | core/context_manager.py:189-360 | a run of a list of tool results in which the second summary survives the third compaction |
| CompactionSummaries.SecondSummaryGoneIff | core/context_manager.py:189-360 | in any list without such a message the second summary is gone from the third compaction on, unless that one split at 0 and every later one at 1 |
| Compaction.CleanHistory | core/agent_loop.py:805-824 | the clean-up drops tool results, replaces callers by notes and appends the notice |
| Compaction.CleanedExactly | core/agent_loop.py:805-824 | the cleaned list holds one message for each that is no tool result, in order, unchanged unless it called tools |
| Compaction.NamesJoin | core/agent_loop.py:811-815 | the names of the called tools, joined by commas |
| Compaction.CleanIsGrouped | core/agent_loop.py:805-824 | after the clean-up the list is well grouped and holds no tool error |
| AgentRun.RunGraph.TransitionTo | core/agent_loop.py:133-151 | a transition happens and is recorded if and only if the table allows it; otherwise nothing changes |
| AgentRun.RunGraph.RequestCancel | core/agent_loop.py:153-159 | a cancel request is refused in DONE and CANCELLED and recorded otherwise |
| AgentRun.RunGraph.RecordRetry | core/agent_loop.py:169-176 | true for exactly the first `max_retries` retries, each of them recorded |
| AgentRun.AllowedByTarget | core/agent_loop.py:98-113 | from which statuses each status can be entered |
| AgentRun.AgentLoop.HandleToolError | core/agent_loop.py:1083-1113 | counter, status and whether the loop goes on after a tool error |
| AgentRun.AgentLoop.FinishTool | core/agent_loop.py:951-1113 | the same for each way a tool call ends |
| AgentRun.AgentLoop.ExecuteToolCalls | core/agent_loop.py:896-1115 | the loop over the calls, with the cancel check before each |
| AgentRun.AgentLoop.RunIteration | core/agent_loop.py:753-892 | one model call and everything that follows from its reply |
| AgentRun.AgentLoop.RunRound | core/agent_loop.py:582-619 | one pass: cancel check, time limit, iteration limit, iteration |
| AgentRun.AgentLoop.RunLoop | core/agent_loop.py:580-628 | the loop of `run` and of `_continue_loop` ends, in the state the specification gives |
| AgentRun.AgentLoop.RunMessage | core/agent_loop.py:501-628 | a whole run, with the identity shield and the idempotency hit |
| AgentRun.AgentLoop.ResumeRun | core/agent_loop.py:1193-1219 | a resume happens if and only if the run waits for its user; otherwise nothing changes |
| AgentRun.RoundCounts | core/agent_loop.py:582-619 | a pass is one iteration and at most one model call, none beyond the iteration limit |
| AgentRun.LoopLands | core/agent_loop.py:580-628 | against every environment the loop ends in one of five statuses, never RUNNING, on a legal path, with at most one call begun after a cancel request |
| AgentRun.LoopCounts | core/agent_loop.py:592-614 | model calls never exceed the iterations or the iteration limit |
| AgentRun.CancelStopsLoop | core/agent_loop.py:583-590 | a cancel request before the next turn ends the run there, without another call |
| AgentRun.FreshRunIsSafe | core/agent_loop.py:501-628 | a fresh run and any number of resumes: final or waiting status, legal path, at most the iteration limit (so at most 50) of model calls over all of them, at most one call begun after a cancel request |
| AgentRun.EndsIffNoHit | core/agent_loop.py:501-628 | a fresh run ends in a final or waiting status if and only if there is no idempotency hit; with one it stays ASSIGNED without a model call |
| AgentEndings.StatusFromEnvironment | core/agent_loop.py:580-628 | the final status from turns, replies and calls alone: WAITING_USER if and only if a question comes first in the first turn that decides, DONE if and only if a result or a third information message without work in between does, and CANCELLED, BUDGET_EXCEEDED and FAILED by their causes |
| AgentEndings.FreshRunEnds | core/agent_loop.py:501-628 | the same for a new run, with at most 50, 30 or 15 turns that reach the model |
| AgentEndings.ResumedRunEnds | core/agent_loop.py:1193-1219 | the same for a resumed run, with errors counted anew, information messages and iterations counted on, and no time limit |
| AgentEndings.ToolsRead | core/agent_loop.py:925-1115 | the tool loop stops at the first deciding call, with the status and the recorded transition of its kind, and otherwise carries the counters on |
| AgentEndings.CallsFromEnvironment | core/agent_loop.py:582-619 | exactly one model call for each turn before the deciding one, and one in it if it gets there |
| AgentEndings.LateCallsOfTurn | core/agent_loop.py:582-619 | a call begins after a cancel request if and only if the request arrives between a check and the call that follows it |
| AgentRun.OutcomesComeFromRunning | core/agent_loop.py:98-113 | no run is done, failed, paused, over budget or waiting without having been running |
| AgentRun.DoneAndCancelledAreFinal | core/agent_loop.py:98-113 | a legal history that reaches DONE or CANCELLED stays there |
| ShellQuote.QuoteRoundTrip | workers/ssh_tools.py:1201-1203 | the shell reads the quoting of s as one word equal to s, for exactly the strings without NUL |
| ShellQuote.QuoteInjective | workers/ssh_tools.py:1201-1203 | no two strings are quoted alike |
| ShellQuote.ReadQuotedWord | workers/ssh_tools.py:1201-1203 | in the middle of a word a quoting adds exactly the characters of s |
| ShellQuote.QuoteInContext | workers/ssh_tools.py:1201-1203 | between blanks in any command it is one more word and disturbs nothing around it |
| ShellQuote.AdjacentQuotesAreOneWord | workers/ssh_tools.py:905-907 | directory, slash and name quoted side by side are one path |
| BatchOutput.ReadSegments | workers/ssh_tools.py:1295-1310 | the loop reads the exit code of every segment and the outputs it finds |
| BatchOutput.ParseBatchOutput | workers/ssh_tools.py:1283-1323 | the parser as a whole, one result per command |
| BatchOutput.HeaderRoundTrip | workers/ssh_tools.py:1299-1310 | one header line and the output after it are read back |
| BatchOutput.BatchRoundTrip | workers/ssh_tools.py:1007-1026 | if the marker starts inside no output, every exit code and every output up to trailing newlines is recovered, and commands that did not run are reported as -1 |
| BatchOutput.StopShape | workers/ssh_tools.py:1012-1020 | with stop-on-error the commands that ran are successes and at most one failure, which is the last |
| BatchOutput.AllOkIffAllZero | workers/ssh_tools.py:1026-1028 | the batch is reported as successful if and only if every command returned 0 |
| BatchOutput.OutputsRecoveredIffClean | workers/ssh_tools.py:1283-1323 | outputs within the length limit are all recovered if and only if the marker starts inside none of them |
| BatchOutput.RStripExact | workers/ssh_tools.py:1297 | what is stripped is every newline at the end and nothing else |
| BatchOutput.SplitExact | workers/ssh_tools.py:1290 | splitting loses nothing and cuts wherever the marker occurs |
| BatchOutput.FindIsFirst | workers/ssh_tools.py:1290 | no marker comes before the one that is found |
| BatchOutput.CodeIsRead | workers/ssh_tools.py:1303-1306 | a printed number is read back with its sign, and text that is no number counts as -1 |
| BatchOutput.BrokenHeaderFails | workers/ssh_tools.py:1301-1308 | a marker line without an exit code counts as -1 |
| BatchOutput.TruncateKeeps | workers/ssh_tools.py:376-380 | outputs up to 1 MiB are kept whole, of longer ones the first 1 MiB |
| LinePatch.SplitJoinIff | workers/ssh_tools.py:1238-1265 | a list of lines comes back from joining and splitting if and only if each is one line and all but the last are ended |
| LinePatch.TranslateFacts | workers/ssh_tools.py:1238 | reading as text leaves no carriage return, and changes nothing if and only if there was none |
| LinePatch.PatchReplacesLines | workers/ssh_tools.py:1238-1260 | the written file splits into the lines before the range, the new lines and the lines after it, if and only if newline is the only boundary among the new lines |
| LinePatch.OddBreakSplitsLine | workers/ssh_tools.py:1258-1259 | a one-line file patched with a line that ends in a form feed reads as two lines |
| LinePatch.RangeAccepted | workers/ssh_tools.py:1245-1247 | a range is refused if and only if it is empty or starts outside the file; one that ends too late is clamped |
| LinePatch.PatchOutcome | workers/ssh_tools.py:1245-1255 | how the script ends, exactly: an impossible range first, then a nonempty expected digest that is not that of the old lines, else patched |
| LinePatch.PatchBack | workers/ssh_tools.py:1258-1260 | putting the old lines back in place of a nonempty replacement restores the file as read, if and only if every old line ended in a newline and newline is the only boundary among the new lines |
| LinePatch.CarriageReturnsAreLost | workers/ssh_tools.py:1238 | a patched file holds no carriage return unless the new text brings one |
| LinePatch.TranslateKeepsLines | workers/ssh_tools.py:1238 | the text-mode read gives as many lines as the file has, each the translation of one |
| LinePatch.OutsideKeptIffNoReturn | workers/ssh_tools.py:1238-1260 | the patched file is the raw lines before the range, the new lines and the raw lines after it, byte for byte, if and only if no raw line outside the range holds a carriage return |
| LinePatch.OutsideReturnIsLost | workers/ssh_tools.py:1238-1260 | a patch of the second line rewrites the line end of the first |
| ProjectHistory.AppendConserves | core/project_manager.py:926-943 | archive and live list together gain exactly the new item, and the live list stays within its limit |
| ProjectHistory.HistoryIsComplete | core/project_manager.py:926-943 | from the empty list on, archive and live list are the full history and the live list is its newest part |
| ProjectHistory.ChargeBalances | core/project_manager.py:1335-1400 | after a recorded cost the total, the sum by agent and the sum of all records agree, and the records are complete |
| ProjectHistory.FailedChargeRecords | core/project_manager.py:1335-1400 | a refused cost leaves the budget file alone; the records stay as they were if and only if the cost was negative or nothing had been rotated |
| ProjectHistory.FailedChargeBalance | core/project_manager.py:1335-1400 | a refused cost keeps balanced books balanced if and only if it was negative or the records it doubled cost nothing |
| ProjectHistory.BooksBalanceIff | core/project_manager.py:1335-1400 | over every run from a new project with any faults: the total is the sum of the accepted costs, each agent's amount that of its own, the live records the newest 500 of them; the records are the accepted ones if and only if no refused charge met a full list, and add up to the total if and only if those doubled cost nothing |
| ProjectHistory.AlertInRun | core/project_manager.py:1378-1395 | over every run, the alert in the budget file is the level of the total by 80, 95 and 100 percent of the limit, 10 dollars if none is named |
| ProjectHistory.ChargeOutcome | core/project_manager.py:1335-1400 | how a charge ends after any run: by negative amounts, then a null limit, then a failed write |
| ProjectHistory.RunOutcome | core/project_manager.py:899-924 | how adding a run ends for an archived project and for each fault, and what the history gains |
| ProjectHistory.RefusedChargeUnbalances | core/project_manager.py:1335-1400 | a run of 500 charges and a refused one after which the books do not balance |
| ProjectHistory.Project.AddDecision | core/project_manager.py:874-893 | outcome and decision log, for missing and archived projects and failed writes |
| ProjectHistory.Project.AddRun | core/project_manager.py:899-924 | outcome and run log, likewise |
| ProjectHistory.Project.RecordCost | core/project_manager.py:1335-1400 | outcome, budget, alert level and cost records, with every error branch |
| ProjectHistory.Project.RemoveRun | core/project_manager.py:1426-1429 | the rollback removes exactly the live runs with that id |
| ProjectHistory.Project.AddRunWithCost | core/project_manager.py:1402-1433 | run, then cost, then rollback if the cost fails |
| ProjectHistory.BothOrNeitherIff | core/project_manager.py:1413-1433 | over every state and every fault: success with both recorded or failure with neither, if and only if the stated condition on faults, list length and id holds; success always means both |
| ProjectHistory.ViewFailureKeepsRun | core/project_manager.py:780-785 | if PROJECT.md cannot be written the run stays without its cost |
| ProjectHistory.RollbackFailureKeepsRun | core/project_manager.py:1423-1432 | if the rollback cannot be written the run stays without its cost |
| ProjectHistory.ReusedIdLosesRun | core/project_manager.py:1427-1429 | a refused cost under the id of a live run takes that run out as well |
| ProjectHistory.RollbackRestores | core/project_manager.py:1419-1433 | when the cost is refused and the rollback gets through, the history is as before, even across a rotation, if and only if no remaining live run carries the new id |
| ProjectHistory.RunAndCostTogether | core/project_manager.py:1413-1417 | with a fresh id: either history and books gain run and cost, or both are as before |
| ProjectHistory.FailedWriteKeepsHistoryIff | core/project_manager.py:926-943 | a failed write of the state file keeps the history if and only if the list was not full |
| ProjectHistory.HistoryExactIff | core/project_manager.py:899-943 | over every run with any faults: archive and live list always are the history of gained runs if and only if no failed state write met a full list and no rollback an id of another live run; never more than 500 live |
| Promotion.Store.EvaluatePromotion | core/golden_paths.py:379-465 | file and reason after an evaluation, in the order of the criteria |
| Promotion.Store.RecordOutcome | core/golden_paths.py:214-296 | file and reason after a report, including a duplicate run id |
| Promotion.Store.AcceptOutcome | core/golden_paths.py:262-291 | counters and window after an accepted outcome |
| Promotion.Store.ApproveCandidate | core/golden_paths.py:324-341 | file and answer after an approval |
| Promotion.RunMatches | core/golden_paths.py:214-296 | over any run, counters are counts over all accepted outcomes, stored outcomes are the newest fifty, flags and the promoted list agree with the full-history reference |
| Promotion.PromotedIffCriteriaMet | core/golden_paths.py:379-465 | a pattern is promoted if and only if at some moment of the run it met all criteria at once: three successes, none untested among the newest fifty outcomes, no rollback, and approval if needed |
| Promotion.ReasonOfReport | core/golden_paths.py:249-296 | the reason returned for a report after any run, from the full accepted history: duplicate id, earlier promotion, then the first failing criterion in order |
| Promotion.PromotionAndRollbackAreFinal | core/golden_paths.py:391-437 | promotion is permanent, and a rollback before promotion blocks it for good |
| Promotion.EqualRunIdsAreFarApart | core/golden_paths.py:249-260 | equal run ids are more than fifty acceptances apart |
| Promotion.PromotedListDistinct | core/golden_paths.py:451-453 | the list of promoted patterns holds none twice |
| Promotion.TestsCriterion | core/golden_paths.py:411-428 | the documented tests criterion is decided by the two counters and implies the evaluated one, which equals it until an outcome is dropped |
| Promotion.TestsCriterionAgreesIff | core/golden_paths.py:411-428 | the two readings agree if and only if the counters are equal or a stored success failed its tests |
| Promotion.PromotionBreaksCriterionIff | core/golden_paths.py:411-428 | a promotion breaks the documented tests criterion if and only if the stored counters differ, that is if a success older than the newest fifty outcomes failed its tests |
| Promotion.UntestedSuccessIsForgotten | core/golden_paths.py:289-291 | a run in which a pattern is promoted although one success failed its tests |
| Promotion.ApprovalAnswerIff | core/golden_paths.py:324-341 | over any run the answer of an approval is whether the pattern is promoted afterwards, so it tells whether the approval promoted it if and only if it was not promoted before |
| Promotion.ApprovedAgain | core/golden_paths.py:324-341 | a run in which an approval answers true and promotes nothing |
| RateLimiter.Limiter.IsAllowed | api/api.py:408-421 | deque and answer after a call, including the IndexError of a limit of zero or less |
| RateLimiter.Limiter.Cleanup | api/api.py:423-430 | exactly the stale keys go |
| RateLimiter.Refines | api/api.py:408-421 | after any run of calls and clean-ups, the next answer is the reference decision on the whole admission history |
| RateLimiter.AdmittedSpread | api/api.py:408-421 | any `max_calls` + 1 consecutive admitted calls of a key span more than the window |
| RateLimiter.WindowNeverExceeded | api/api.py:408-421 | no moment sees more than `max_calls` admitted calls in its window |
| RateLimiter.DeniedIffWindowFull | api/api.py:416-419 | a call is denied if and only if `max_calls` admitted calls lie in its window |
| RateLimiter.EmptyWindowIff | api/api.py:416-417 | after any run a call raises IndexError if and only if the limit is zero or less |
| RateLimiter.RetryAfterIsExact | api/api.py:417-419 | the announced wait suffices, exceeds the need by at most one second, and earlier calls are admitted exactly once the need has passed |
| RateLimiter.CleanupIsInvisible | api/api.py:423-430 | clean-ups anywhere change no answer |
| RateLimiter.SweptIff | api/api.py:427-430 | a clean-up keeps a key if and only if its last admission is at most two windows old |

The remaining functions define the specifications named above, and the remaining lemmas are steps of
these proofs.

## Left out

- BudgetDowngrade.AutoDowngrade: for tables with a model twice in one tier the model found is not characterised beyond fitting, because the program's own tables hold none (`ArcaneTiersDistinct`).
- Approval.Gate.Pending: requests created at the same instant may come in any order, because the order of insertion is not modelled.
- BudgetStore.Controller.Record: the threshold check that follows is modelled by itself in `BudgetAlerts`, and saves do not fail.
- ShellQuote.AdjacentQuotesAreOneWord: stops before the glob suffix `.*.bak`, whose expansion depends on the files of the server.
- AgentRun.AgentLoop.FinishTool: messages, artifacts, phases and events of a tool call are not modelled.
- AgentRun.AgentLoop.ExecuteToolCalls: the same.
- AgentRun.AgentLoop.RunIteration: messages, compaction inside the loop and usage records are not modelled.
- AgentRun.AgentLoop.RunMessage: the summary, delivery fallback and stored result after the loop are not modelled; none of them changes the status.
- Promotion.Store.AcceptOutcome: the duration and cost averages are not modelled; nothing is decided by them.
- CompactionSummaries.SummariesKept: appended messages are taken not to be summaries themselves, which only compaction makes.
- CompactionSummaries.SummariesInRun: appended messages are taken not to be summaries themselves, which only compaction makes.
- Compaction.Compactor.CompactMessages: the summary is kept in structured form; rendering to text, the cut to `summary_max_tokens` and text repr of multimodal user content are not modelled, and lower-casing covers ASCII letters.
- Regular expressions: the PII and destructive patterns are arbitrary functions from a text to spans or a truth value; where it matters, no PII pattern is for cards, as in the program's own table.
- HMAC and SHA-256: injective, respectively arbitrary, functions; key handling is not modelled.
- Floating point: amounts are exact integers in units of 1e-8 USD and limiter times exact reals; overrides finer than that unit, the savings percentage and dashboard rounding are not modelled.
- Callbacks, save errors, the global budget file, `get_remaining`, sorting and the top-20 cut of the dashboard, and a month boundary inside one call.
- `needs_compaction` and the estimate over message lists: sums and thresholds over the estimate modelled here.
- Agent loop: messages, prompts, tool schemas, events, memory, usage records, `restore_state`, the choice of complexity from keywords and cancellation of the asyncio task.
- Identity shield and idempotency store: whether they hit is a parameter.
- Project lifecycle, settings, pages, deep merge, archive to a tar file and its restore: map and file plumbing.
- Partial writes: a write of the state or budget file happens whole or not at all; appends to an archive file succeed.
- Golden paths: averages, labels, timestamps, templates and the reset of a corrupt file.
- Remote work: file locks, SFTP, the JSON escaping of the patch script and the cut of the whole standard output; `int()` on exit codes with underscores, blanks or non-ASCII digits.
- Shell words: double quotes, expansions and operators are answered as unsupported by the reader; only blanks, plain characters, backslash and single quotes are read.
- Threads and processes: operations are taken one at a time, as an assumption; the program holds a lock in some of them and none in others, such as `record_cost`, between the steps of `add_run_with_cost`, in `ApprovalGate` and in `_check_thresholds`.
- HTTP endpoints, model providers, prompts, orchestration and persistence layers.
