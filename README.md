# reconpilot, modelled in Dafny

reconpilot is an automated reconnaissance orchestrator. Given a target (a domain, an
IPv4 address or a URL), it queues a first tool run. It then runs external scanners
(subfinder, amass, assetfinder, rustscan, masscan, dnsx, dnsrecon, httpx, nuclei,
whatweb, wafw00f, whois, nikto, wpscan, nmap) and turns their output into assets
and findings. Each new asset is deduplicated by `type:value`, scored, and chained to
follow-up tools by a table of rules.

This project models the synchronous decision logic of that core and proves
properties of it:

- `Plan` (`plan.dfy`): the reconnaissance plan. A double-ended queue of pending
  tasks, plus the running, completed, failed and skipped lists, mutated in place.
- `Orchestrator` (`orchestrator.dfy`): the orchestrator class:
  - the choice of the first task;
  - asset deduplication, scoring and follow-up chaining;
  - one turn of the orchestration loop;
  - the outcome of running one task;
  - pause, resume and stop.
- `Rules` (`rules.dfy`): the chaining rules, ordered by a stable sort on descending priority.
- `Scoring` (`scoring.dfy`): base plus rule modifiers, capped at 100.
- `Events` (`events.dfy`): the event bus. Subscribers, a history capped at 1000, and
  history queries.
- `Models` (`models.dfy`): the records, and the session's counters.
- `Registry` (`registry.dfy`): the tool registry and its queries, and the default registry.
- `Base` (`base.dfy`): tool results and configuration, the default partial parser,
  and which results `execute` yields for a run. A run is given as a trace of stdout
  lines, read timeouts and exceptions, plus the exit code and stderr.
- `Helpers` (`helpers.dfy`): duration formatting, file-name sanitising, truncation,
  and the IP, domain and URL validators.
- `Generator` (`generator.dfy`): the report context groupings, the JSON report, and
  the format and output-path logic of `generate`.
- One module per adapter: its argv builder, `parse_output` and, where the adapter has
  one, `parse_partial`. The line parser that subfinder, amass and assetfinder share is
  `SubdomainLines`.
- Support modules:
  - `Outcomes`: `Option`, and `Outcome` for a computation that may raise a Python exception.
  - `Json` and `Xml`: decoded documents, and the Python operations applied to them.
  - `Strings`: Python `str` operations.
  - `Patterns`: the adapters' regular expressions, written out as matchers.
  - `Seqs`: list comprehensions, filters and `list.remove`.

Where the source loops, the model is a method with a loop. The method is proved
against a recursive function that defines the result, and the properties are lemmas
about that function. `ReconPlan`, `EventBus`, `RulesEngine`, `ScoringEngine`,
`ToolRegistry`, `Orchestrator` and `Task` are classes whose methods change their
fields in place. Assets, findings, sessions, events and tool results are values.

The model follows the code as written, including these behaviours:

- `_orchestration_loop` never yields on its dispatch branch, so `max_parallel` is
  checked but not enforced. `NoCapacityNeverEnds` shows that a `max_parallel` of 0
  or less makes an unstopped loop wait forever.
- httpx stores detected technologies under `technologies`, while the WordPress
  rule reads `technology`. So no httpx asset chains wpscan (`ParsedNeverWordPress`).
- whatweb raises on a plugin whose version list is empty (`EmptyVersionListRaises`).
- nmap returns an empty, successful result for XML it cannot parse (`UnparsableOutput`).
- The validators accept one trailing newline, as Python's `$` does.
- `sanitize_filename` is not idempotent (`SanitizeNotIdempotent`).

The code has no prerequisite graph between tools, no scope filter, no retry and no
resumable scan, so none is modelled.

## Model

| member | source | states |
|---|---|---|
| Plan.TaskNames | reconpilot/core/orchestrator.py:92-101 | the tool names of the tasks, one per task, in order |
| Plan.TaskNamesConcat | reconpilot/core/orchestrator.py:92-101 | the names of two runs of tasks are the names of the first followed by those of the second |
| Plan.PushedContents | reconpilot/core/orchestrator.py:46-51 | adding a task to the queue adds that task and nothing else |
| Plan.TaskNamesPushed | reconpilot/core/orchestrator.py:46-51 | pushing a task pushes its name in the same place |
| Plan.PushPop | reconpilot/core/orchestrator.py:46-57 | a priority task is served next; a normal one is served after everything already pending |
| Plan.PoppedRemovesFront | reconpilot/core/orchestrator.py:53-57 | nothing is served if and only if the queue is empty; otherwise exactly the front task leaves the queue |
| Plan.JoinThenLeave | reconpilot/core/orchestrator.py:59-90 | marking a task running and then finished leaves the running list as it was when the task was not running before |
| Plan.RemoveLast | reconpilot/core/orchestrator.py:71-72 | removing a task appended to a list that did not hold it gives the list back |
| Plan.LeaveKeepsMultiset | reconpilot/core/orchestrator.py:71-89 | leaving the running list takes out exactly one copy of a running task, and changes nothing for a task that is not running |
| Plan.ReconPlan.constructor | reconpilot/core/orchestrator.py:39-44 | a new plan holds no task |
| Plan.ReconPlan.AddTask | reconpilot/core/orchestrator.py:46-51 | the task goes to the front of the queue when `priority`, else to the back; the other lists are unchanged and the plan gains exactly that task |
| Plan.ReconPlan.GetNextTask | reconpilot/core/orchestrator.py:53-57 | the front task is removed and returned, or nothing when the queue is empty; the plan loses exactly the returned task |
| Plan.ReconPlan.MarkRunning | reconpilot/core/orchestrator.py:59-64 | the task is running since now and listed as running once; other fields and lists are unchanged |
| Plan.ReconPlan.MarkCompleted | reconpilot/core/orchestrator.py:66-73 | the task is completed now with progress 100, leaves the running list and is appended to the completed list; a running task keeps the plan's contents |
| Plan.ReconPlan.MarkFailed | reconpilot/core/orchestrator.py:75-82 | the task failed now with the error, leaves the running list and is appended to the failed list; a running task keeps the plan's contents |
| Plan.ReconPlan.MarkSkipped | reconpilot/core/orchestrator.py:84-90 | the task is skipped now, leaves the running list and is appended to the skipped list; a running task keeps the plan's contents |
| Plan.ReconPlan.AllTasks | reconpilot/core/orchestrator.py:92-101 | all the plan's tasks, pending ones first in queue order: as many as the five lists hold together, and the same tasks as a multiset |
| Orchestrator.InitialToolByTargetKind | reconpilot/core/orchestrator.py:166-188 | a URL target starts with httpx, a valid IPv4 address with nmap, and a valid domain with subfinder |
| Orchestrator.TargetKindsDisjoint | reconpilot/core/orchestrator.py:170-182 | no target is both a valid URL and a valid IPv4 address, and a valid domain is neither |
| Orchestrator.InitialTool | reconpilot/core/orchestrator.py:166-188 | the first tool is httpx exactly for a URL, nmap exactly for a valid IPv4 address, and subfinder exactly for anything else |
| Orchestrator.LoopDecision | reconpilot/core/orchestrator.py:190-213 | the loop waits exactly when it is not stopped and either paused, at `max_parallel` running tasks, or out of pending tasks with some still running |
| Orchestrator.KeysOfMembership | reconpilot/core/orchestrator.py:280-283 | every handled asset's `type:value` key is among the seen keys |
| Orchestrator.ScoredAll | reconpilot/core/orchestrator.py:285-289 | each recorded asset is the corresponding kept asset carrying the score the asset rules give it |
| Orchestrator.ScoredAllConcat | reconpilot/core/orchestrator.py:285-289 | scoring two runs of assets is scoring each run |
| Orchestrator.KeysOfConcat | reconpilot/core/orchestrator.py:280-283 | the keys seen after two runs of assets are the union of the keys of each |
| Orchestrator.NewAssetsStep | reconpilot/core/orchestrator.py:279-289 | one more asset is kept exactly when its key is neither seen before nor among the earlier assets' keys |
| Orchestrator.NewAssetsConcat | reconpilot/core/orchestrator.py:279-289 | handling two runs of assets keeps what the first keeps, then what the second keeps given the keys the first added |
| Orchestrator.NewAssetsFrom | reconpilot/core/orchestrator.py:279-289 | every kept asset was discovered and had an unseen key |
| Orchestrator.NewAssetsKeys | reconpilot/core/orchestrator.py:279-289 | the kept assets carry exactly the discovered keys that were not seen before |
| Orchestrator.NewAssetsDistinct | reconpilot/core/orchestrator.py:279-289 | no two kept assets share a key |
| Orchestrator.NewAssetsNone | reconpilot/core/orchestrator.py:279-282 | assets whose keys are all seen are all dropped |
| Orchestrator.NewAssetsAgain | reconpilot/core/orchestrator.py:279-289 | handling the same assets a second time records nothing new |
| Orchestrator.AssetKeyDistinguishes | reconpilot/core/orchestrator.py:280 | for types without a colon, two assets share a key if and only if they have the same type and value |
| Orchestrator.AvailableMembership | reconpilot/core/orchestrator.py:303-307 | a proposed tool survives if and only if it was proposed and is registered and on the path |
| Orchestrator.Tools | reconpilot/core/orchestrator.py:303-316 | the tool names of the proposals, one per proposal, in order |
| Orchestrator.EnqueueShape | reconpilot/core/orchestrator.py:303-316 | after the follow-ups the queue is the urgent ones, then the old queue, then the others |
| Orchestrator.FrontSpec | reconpilot/core/orchestrator.py:315 | the front holds the tools of the follow-ups with priority above 8, last added first |
| Orchestrator.BackSpec | reconpilot/core/orchestrator.py:315 | the back holds the tools of the follow-ups with priority 8 or less, in the order added |
| Orchestrator.EnqueueOrder | reconpilot/core/orchestrator.py:303-316 | the queue after the follow-ups: urgent tools reversed, then the old queue, then the rest in order |
| Orchestrator.PushAllSnoc | reconpilot/core/orchestrator.py:315 | pushing one more follow-up task pushes it with priority exactly when its priority exceeds 8 |
| Orchestrator.ChainedStep | reconpilot/core/orchestrator.py:303-316 | one pass of the follow-up loop keeps the loop's invariant, whether the tool is usable or skipped |
| Orchestrator.PushAllNames | reconpilot/core/orchestrator.py:303-316 | the queued task names follow the order of the proposals as `EnqueueOrder` describes |
| Orchestrator.PushAllContents | reconpilot/core/orchestrator.py:315-316 | the queue gains exactly the new tasks |
| Orchestrator.FollowUpsSpec | reconpilot/core/orchestrator.py:300-316 | a follow-up is planned if and only if the mode is auto, a matching rule proposes it, and its tool is usable |
| Orchestrator.LoopDecisionSpec | reconpilot/core/orchestrator.py:190-213 | a task is dispatched if and only if not stopped, not paused, below capacity and pending; the loop ends if and only if stopped, or idle below capacity with nothing pending or running |
| Orchestrator.NoCapacityNeverEnds | reconpilot/core/orchestrator.py:199-201 | with `max_parallel` at most 0 an unstopped loop only ever waits |
| Orchestrator.RecordedSingle | reconpilot/core/orchestrator.py:279-289 | handling one asset records its key and its scored copy if the key is new, and nothing otherwise |
| Orchestrator.RecordedConcat | reconpilot/core/orchestrator.py:241-242 | handling two runs of assets one after the other records what handling them together records |
| Orchestrator.ChainedGrew | reconpilot/core/orchestrator.py:303-316 | the follow-up loop adds exactly its new tasks to the queue |
| Orchestrator.GrewTrans | reconpilot/core/orchestrator.py:238-246 | the tasks added by successive steps add up |
| Orchestrator.EnqueueSnoc | reconpilot/core/orchestrator.py:315 | one more follow-up pushes its tool name to the front or the back by its priority |
| Orchestrator.Orchestrator.constructor | reconpilot/core/orchestrator.py:107-122 | a new orchestrator has an empty session for the target, an empty plan, the default rules and scoring rules, no seen key, and is neither paused nor stopped |
| Orchestrator.Orchestrator.CreateInitialTask | reconpilot/core/orchestrator.py:166-188 | the first task is a pending task named by the target's kind, described accordingly, and aimed at the target |
| Orchestrator.Orchestrator.Begin | reconpilot/core/orchestrator.py:124-137 | the scan start is announced, and the first task joins the back of the queue and the session's tasks; nothing else changes |
| Orchestrator.Orchestrator.Finish | reconpilot/core/orchestrator.py:151-164 | the session is completed now and the completion is announced with the numbers of assets and findings |
| Orchestrator.Orchestrator.Step | reconpilot/core/orchestrator.py:190-213 | one turn takes the decision `LoopDecisionSpec` characterises and, when it dispatches, pops exactly the front task |
| Orchestrator.Orchestrator.Pause | reconpilot/core/orchestrator.py:336-338 | the orchestrator is paused; nothing else changes |
| Orchestrator.Orchestrator.Resume | reconpilot/core/orchestrator.py:340-342 | the orchestrator is no longer paused; nothing else changes |
| Orchestrator.Orchestrator.Stop | reconpilot/core/orchestrator.py:344-346 | the orchestrator is stopped; nothing else changes |
| Orchestrator.Orchestrator.ExecuteTask | reconpilot/core/orchestrator.py:215-275 | an unknown or unavailable tool fails the task with the message naming the cause and changes nothing else; otherwise the task runs, its results' new assets are recorded scored and deduplicated, its findings appended, follow-ups queued, and it then completes or fails with the stream's error |
| Orchestrator.Orchestrator.RunTask | reconpilot/core/orchestrator.py:226-275 | the running task's results are handled in order and the task then completes, or fails with the stream's error |
| Orchestrator.Orchestrator.ExecuteToolTask | reconpilot/core/orchestrator.py:215-275 | with the stream being what the tool's `execute` yields, a task whose tool can run always ends completed with progress 100, and records exactly the assets and findings of the successful results; timeouts and process failures do not fail it |
| Orchestrator.FailedResultAddsNothing | reconpilot/core/orchestrator.py:239 | an unsuccessful result adds no asset or finding and leaves the task's progress alone |
| Orchestrator.TimedOutRunKeepsPartials | reconpilot/core/orchestrator.py:237-258 | a tool that times out after some lines contributes exactly the assets and findings of its partial results |
| Orchestrator.CrashedRunKeepsPartials | reconpilot/core/orchestrator.py:237-258 | a tool whose run raises after some lines contributes exactly the assets and findings of its partial results |
| Orchestrator.Orchestrator.EndTask | reconpilot/core/orchestrator.py:258-275 | a stream that ended normally completes the task and announces it; one that raised fails it with the message and announces that |
| Orchestrator.Orchestrator.HandleResults | reconpilot/core/orchestrator.py:238-256 | over the whole stream: the new assets recorded, all findings appended in order, the progress of the last successful result kept |
| Orchestrator.Orchestrator.HandleNextResult | reconpilot/core/orchestrator.py:238-256 | the stream invariant holds after one more result |
| Orchestrator.Orchestrator.HandleResult | reconpilot/core/orchestrator.py:239-256 | a successful result has its assets, then its findings handled and sets the progress; a failed one changes nothing |
| Orchestrator.Orchestrator.HandleAssets | reconpilot/core/orchestrator.py:241-242 | the assets of a result are handled in order: the seen keys and the session's assets are as `Recorded` says |
| Orchestrator.Orchestrator.HandleNextAsset | reconpilot/core/orchestrator.py:241-242 | the asset-loop invariant holds after one more asset |
| Orchestrator.Orchestrator.HandleFindings | reconpilot/core/orchestrator.py:245-246 | the findings of a result are appended to the session in order |
| Orchestrator.Orchestrator.HandleFinding | reconpilot/core/orchestrator.py:318-334 | the finding is appended to the session and announced; nothing else changes |
| Orchestrator.Orchestrator.HandleAsset | reconpilot/core/orchestrator.py:277-316 | an asset whose key was seen changes nothing; a new one is recorded scored, announced, and its usable follow-ups are queued on its value |
| Orchestrator.Orchestrator.HandleNewAsset | reconpilot/core/orchestrator.py:283-316 | a new asset is recorded scored, announced, and followed up as `FollowUpAsset` says |
| Orchestrator.Orchestrator.FollowUpAsset | reconpilot/core/orchestrator.py:300-316 | in auto mode the usable proposals of the rules become tasks queued by priority; in any other mode nothing is queued |
| Orchestrator.Orchestrator.RecordAsset | reconpilot/core/orchestrator.py:283-298 | the key is marked seen, the scored asset is appended to the session, and its discovery is announced |
| Orchestrator.Orchestrator.AddFollowUps | reconpilot/core/orchestrator.py:303-316 | each usable proposal becomes a pending task on the asset's value, queued in front when its priority exceeds 8 and behind otherwise |
| Orchestrator.Orchestrator.AddFollowUp | reconpilot/core/orchestrator.py:304-316 | an unusable tool is skipped; a usable one becomes one pending task named after it, queued by its priority and added to the session |
| Rules.MatchesSnoc | reconpilot/core/rules.py:124-127 | one more rule adds its entry after the others exactly when its condition holds |
| Rules.InsertPos | reconpilot/core/rules.py:130 | a stable descending insertion puts an entry after every entry of at least its priority and before every entry of lower priority |
| Rules.InsertSorted | reconpilot/core/rules.py:130 | inserting into a list sorted by descending priority keeps it sorted |
| Rules.InsertWithPriority | reconpilot/core/rules.py:130 | inserting keeps every priority's entries in order, the new entry last among its own priority |
| Rules.SortDescSorted | reconpilot/core/rules.py:130 | `sort(key=priority, reverse=True)` gives a list sorted by descending priority |
| Rules.SortDescStable | reconpilot/core/rules.py:130 | the sort keeps each priority's entries, in their original order: it is stable and loses or adds nothing |
| Rules.MatchesMembership | reconpilot/core/rules.py:124-127 | an entry is matched if and only if some rule's condition holds for the asset and the entry is that rule's |
| Rules.WithPriorityMembership | reconpilot/core/rules.py:130 | the entries of a priority are exactly the entries with that priority |
| Rules.NextToolsSpec | reconpilot/core/rules.py:122-131 | the follow-ups are sorted by descending priority, ties keep rule order, and they are exactly the entries of the rules whose condition holds |
| Rules.SortDescSpec | reconpilot/core/rules.py:129-131 | the stable descending sort is sorted and keeps, for each priority, exactly the entries of that priority in their original order |
| Rules.NextTools | reconpilot/core/rules.py:122-131 | the follow-ups are sorted by descending priority and hold, for each priority, exactly the matching entries of that priority in rule order |
| Rules.AddedRuleComesLastInItsPriority | reconpilot/core/rules.py:133-135 | a rule added last comes after every existing follow-up of its priority |
| Rules.RulesEngine.constructor | reconpilot/core/rules.py:21-120 | a new engine holds the twelve default rules, in table order |
| Rules.RulesEngine.GetNextTools | reconpilot/core/rules.py:122-131 | the match loop and the sort compute the follow-ups of `NextTools` |
| Rules.RulesEngine.AddRule | reconpilot/core/rules.py:133-135 | the rule is appended at the end of the table |
| Rules.DefaultMatches | reconpilot/core/rules.py:27-120 | the matches of the default table are its twelve rules' contributions, in table order |
| Rules.DomainFollowUps | reconpilot/core/rules.py:28-57 | a domain is followed by dnsrecon, subfinder, whois and amass, in that order |
| Rules.SubdomainFollowUps | reconpilot/core/rules.py:58-73 | a subdomain is followed by dnsx, then httpx |
| Rules.HttpServiceFollowUps | reconpilot/core/rules.py:74-104 | an HTTP service is followed by whatweb, nuclei and wafw00f, with wpscan first exactly when its `technology` metadata is `WordPress` |
| Rules.IpFollowUps | reconpilot/core/rules.py:105-119 | an IP is followed by nmap, then rustscan |
| Rules.OtherTypesHaveNoFollowUps | reconpilot/core/rules.py:27-120 | every other asset type chains nothing |
| Scoring.ScoringEngine.constructor | reconpilot/core/scoring.py:20-90 | a new engine holds the five default asset rules and the five severity rules |
| Scoring.ScoringEngine.ScoreAsset | reconpilot/core/scoring.py:92-101 | the rule loop adds to the base of 10 the modifier of every asset rule the asset meets, then caps at 100 |
| Scoring.ScoringEngine.ScoreFinding | reconpilot/core/scoring.py:103-111 | the rule loop sums the modifiers of the finding rules the finding meets, then caps at 100 |
| Scoring.ScoringEngine.AddAssetRule | reconpilot/core/scoring.py:113-115 | the rule is appended to the asset rules; the finding rules are unchanged |
| Scoring.ScoringEngine.AddFindingRule | reconpilot/core/scoring.py:117-119 | the rule is appended to the finding rules; the asset rules are unchanged |
| Scoring.ModifierSumNonNegative | reconpilot/core/scoring.py:95-99 | with non-negative modifiers the sum of the matching modifiers is non-negative |
| Scoring.ModifierSumNoMatch | reconpilot/core/scoring.py:97-99 | rules the item does not meet contribute nothing |
| Scoring.ModifierSumAppend | reconpilot/core/scoring.py:113-119 | a rule appended later adds its modifier to every later score of an item it matches |
| Scoring.AssetScoreBounds | reconpilot/core/scoring.py:92-101 | with non-negative rules an asset scores between the base of 10 and the cap of 100 |
| Scoring.AssetScoreNoMatch | reconpilot/core/scoring.py:92-101 | an asset that meets no rule scores exactly 10 |
| Scoring.DefaultAssetScore | reconpilot/core/scoring.py:28-101 | the default asset score is 10 plus 50, 30, 40, 35 and 25 for the admin, development, database-port, sensitive-file and API rules it meets, each once however many keywords occur, capped at 100 |
| Scoring.DatabasePortOnlyForPorts | reconpilot/core/scoring.py:45-53 | the database-port rule applies to port assets only |
| Scoring.DefaultFindingScore | reconpilot/core/scoring.py:74-111 | with the default rules a finding scores its severity's value: 100, 75, 50, 25 or 10 |
| Scoring.RulesKeepToTheirKind | reconpilot/core/scoring.py:28-90 | asset rules never fire for a finding and severity rules never for an asset |
| Events.Last | reconpilot/core/events.py:75 | a suffix of the list: its last `n` elements, all of them when there are fewer |
| Events.EventBus.constructor | reconpilot/core/events.py:38-41 | a new bus has no subscribers and an empty history |
| Events.EventBus.Subscribe | reconpilot/core/events.py:43-47 | the callback is appended to its type's list, the list created when absent; the history is unchanged |
| Events.EventBus.Unsubscribe | reconpilot/core/events.py:49-52 | nothing happens for a type without a list; otherwise the first occurrence of the callback is removed, and ValueError is raised, with nothing changed, when it is absent |
| Events.EventBus.Publish | reconpilot/core/events.py:54-65 | the event is appended to the history, the oldest entry dropped once the cap of 1000 is exceeded; the subscribers of the event's type are called in subscription order; subscriptions are unchanged |
| Events.EventBus.ClearHistory | reconpilot/core/events.py:78-80 | the history is emptied and the subscribers stay |
| Events.EventBus.GetHistory | reconpilot/core/events.py:67-76 | the history entries of the requested type, no more than the history holds, and at most `limit` of them when the limit is positive |
| Events.HistoryQueryShape | reconpilot/core/events.py:67-76 | a history query returns only history entries of the requested type, and at most `limit` of them when the limit is positive |
| Events.PublishAllKeepsMostRecent | reconpilot/core/events.py:54-58 | publishing a run of events keeps exactly the most recent 1000 events, in publish order |
| Events.HistoryOfFreshBus | reconpilot/core/events.py:38-58 | a fresh bus holds the last min(n, 1000) of n published events |
| Events.HistoryByType | reconpilot/core/events.py:72-73 | a type filter keeps exactly the events of that type |
| Events.HistoryPositiveLimit | reconpilot/core/events.py:74-75 | a positive limit keeps the last `limit` entries |
| Events.HistoryNoLimit | reconpilot/core/events.py:74-76 | a limit of `None` or 0 truncates nothing |
| Events.HistoryNegativeLimit | reconpilot/core/events.py:74-75 | a negative limit, read as Python's slice, drops the first `-limit` entries instead of keeping the last ones |
| Models.SeverityPresentationDistinct | reconpilot/core/models.py:18-48 | distinct severities have distinct values, colours and icons |
| Models.Task.constructor | reconpilot/core/models.py:51-63 | a new task is pending at progress 0, never started or completed, without error, with the given name, description and metadata |
| Models.ScanSession.CriticalCount | reconpilot/core/models.py:105-108 | the number of critical findings, at most the number of findings |
| Models.ScanSession.HighCount | reconpilot/core/models.py:110-113 | the number of high findings, at most the number of findings |
| Models.NewSession | reconpilot/core/models.py:93-103 | a new session has the target and start time, is not completed, holds no tasks, findings or assets, and counts no critical or high findings |
| Models.CountsAfterFinding | reconpilot/core/models.py:105-113 | adding a finding raises the critical count exactly when it is critical and the high count exactly when it is high |
| Models.CountsDisjoint | reconpilot/core/models.py:105-113 | no finding is counted as both critical and high |
| Registry.ValuesOf | reconpilot/tools/registry.py:46-48 | the adapters of the listed names, one per name, in order |
| Registry.FilterValues | reconpilot/tools/registry.py:21-44 | filtering the adapters in registration order is filtering their names |
| Registry.ToolRegistry.constructor | reconpilot/tools/registry.py:10-11 | a new registry holds no adapters |
| Registry.ToolRegistry.Register | reconpilot/tools/registry.py:13-15 | the adapter is filed under its name, replacing an earlier one of that name in its old position; a new name goes last |
| Registry.ToolRegistry.Get | reconpilot/tools/registry.py:17-19 | an adapter is returned if and only if its name is registered, and it is the one filed under that name |
| Registry.ToolRegistry.AllTools | reconpilot/tools/registry.py:46-48 | every registered adapter exactly once, in registration order |
| Registry.ToolRegistry.Select | reconpilot/tools/registry.py:21-44 | the registered adapters satisfying a condition, and only those, in registration order |
| Registry.ToolRegistry.GetByCategory | reconpilot/tools/registry.py:21-26 | exactly the registered adapters of the category |
| Registry.ToolRegistry.GetAvailable | reconpilot/tools/registry.py:28-30 | exactly the registered adapters whose binary is on the search path |
| Registry.ToolRegistry.GetForAssetType | reconpilot/tools/registry.py:32-37 | exactly the registered adapters that consume the asset type |
| Registry.ToolRegistry.GetProducers | reconpilot/tools/registry.py:39-44 | exactly the registered adapters that produce the asset type |
| Registry.CreateDefaultRegistry | reconpilot/tools/registry.py:51-88 | a fresh registry holding the fifteen adapters in registration order, each filed under its own name |
| Registry.DefaultNamesDistinct | reconpilot/tools/registry.py:72-86 | the fifteen default adapters have distinct names, each its configuration's |
| Registry.NamesDiffer | reconpilot/tools/registry.py:72-86 | any two default adapter names differ |
| Base.DefaultParsePartial | reconpilot/tools/base.py:71-74 | the default partial parser returns an unsuccessful, empty result under the tool's name, so it never yields |
| Base.Lines | reconpilot/tools/base.py:99-114 | a run that reads the given texts as lines, one read per text |
| Base.Execute | reconpilot/tools/base.py:76-154 | the read loop yields the results `ExecuteResults` describes: one failure naming the binary when it is unavailable; otherwise worthwhile partial results, then a failure on a timeout or exception, or else the final parse |
| Base.ExecuteResults | reconpilot/tools/base.py:76-154 | there is always a last result and every one before it is a successful, non-empty partial result; an unavailable binary gives one unsuccessful result |
| Base.Yielded | reconpilot/tools/base.py:98-140 | the read loop yields at least one result and at most one per read plus the final one |
| Base.RaiseEndsTheRun | reconpilot/tools/base.py:141-146 | a run whose reading raises after some lines yields its partial results and then exactly one failure carrying the exception's message |
| Base.UnavailableYieldsOneFailure | reconpilot/tools/base.py:78-84 | an unavailable binary yields exactly one unsuccessful result whose error names the binary |
| Base.YieldedShape | reconpilot/tools/base.py:99-140 | there is always a last result, and every result before it is a successful, non-empty partial result |
| Base.TimeoutEndsTheRun | reconpilot/tools/base.py:116-124 | a run that reads lines then times out yields its partial results and then exactly one `Timeout after <n>s` failure, without parsing the whole output |
| Base.ConcatCons | reconpilot/tools/base.py:109-112 | joining lines read so far is the first line followed by the join of the rest |
| Base.CompleteRunEndsWithFullParse | reconpilot/tools/base.py:99-140 | a run that reads only lines yields its partial results and then the parse of all lines concatenated |
| Base.FinalResultError | reconpilot/tools/base.py:134-140 | the final result's error is replaced by stderr exactly when the exit code is non-zero and the parse did not succeed; otherwise the parse is yielded unchanged |
| Helpers.DurationSum | reconpilot/utils/helpers.py:7-23 | for a non-negative duration the shown day, hour, minute and second parts add up to the duration |
| Helpers.FormatDuration | reconpilot/utils/helpers.py:7-23 | the text is never empty and ends in one of the unit letters `d`, `h`, `m`, `s` |
| Helpers.DurationShape | reconpilot/utils/helpers.py:9-23 | the parts are never empty, come in the order d, h, m, s, are positive except a lone `0s`, and hours stay below 24 and minutes and seconds below 60 |
| Helpers.FormatZero | reconpilot/utils/helpers.py:20-21 | zero seconds is shown as `0s` |
| Helpers.NegativeDurationDropsDays | reconpilot/utils/helpers.py:9-15 | a negative duration shows no days: only the hours, minutes and seconds of its remainder modulo a day, as `timedelta` normalises it |
| Helpers.OctetIsByte | reconpilot/utils/helpers.py:41 | the octet alternatives accept exactly the one- to three-digit numerals of value at most 255 |
| Helpers.IpIsFourBytes | reconpilot/utils/helpers.py:39-42 | an address text is exactly four dot-separated numerals of value at most 255 |
| Helpers.IpTextIsQuad | reconpilot/utils/helpers.py:41-48 | every valid address is also accepted as the host of a URL |
| Helpers.ValidTextsHaveNoNewline | reconpilot/utils/helpers.py:33-42 | an address or domain text holds no newline |
| Helpers.IpOneTrailingNewline | reconpilot/utils/helpers.py:39-42 | an address is valid as it stands and with one trailing newline, never with two, as Python's `$` allows |
| Helpers.DomainOneTrailingNewline | reconpilot/utils/helpers.py:33-36 | a domain is valid as it stands and with one trailing newline, never with two |
| Helpers.IpTextStartsWithDigit | reconpilot/utils/helpers.py:41 | an address text begins with a digit |
| Helpers.IsValidIp | reconpilot/utils/helpers.py:39-42 | a valid address is non-empty, begins with a digit, and holds no newline except possibly a final one |
| Helpers.IsValidDomain | reconpilot/utils/helpers.py:33-36 | a valid domain is non-empty, holds no colon, and no newline except possibly a final one |
| Helpers.IsValidUrl | reconpilot/utils/helpers.py:45-48 | a valid URL is at least eight characters long, begins with `h`, and has its scheme's colon at position 4 or 5 |
| Helpers.UrlTextScheme | reconpilot/utils/helpers.py:47 | a URL text begins with `h`, has its scheme's colon at position 4 or 5, and is at least eight characters long |
| Helpers.IpIsNotUrl | reconpilot/utils/helpers.py:39-48 | a valid address is never a valid URL |
| Helpers.DomainTextHasNoColon | reconpilot/utils/helpers.py:35 | a domain text holds no colon |
| Helpers.IpTextIsNotDomainText | reconpilot/utils/helpers.py:35-41 | an address text is never a domain text, its last octet being a numeral |
| Helpers.DomainIsNeitherUrlNorIp | reconpilot/utils/helpers.py:33-48 | a valid domain is neither a valid URL nor a valid address |
| Helpers.HostEnd | reconpilot/utils/helpers.py:47 | the host part of a URL ends at the first `:` or `/`, or at the end |
| Helpers.ReplaceForbidden | reconpilot/utils/helpers.py:54 | each of `<>:"/\|?*` is replaced by `_`, every other character kept, the length unchanged |
| Helpers.LStripDotsSpaces | reconpilot/utils/helpers.py:56 | the result is a suffix of the input that does not start with a dot or a space |
| Helpers.RStripDotsSpaces | reconpilot/utils/helpers.py:56 | the result is a prefix of the input that does not end with a dot or a space |
| Helpers.SanitizedShape | reconpilot/utils/helpers.py:51-60 | replacing, stripping and cutting to 200 characters leaves no forbidden character and no leading dot or space |
| Helpers.SanitizeFilename | reconpilot/utils/helpers.py:51-60 | the name has at most 200 characters, no forbidden character, and does not start with a dot or a space |
| Helpers.SanitizeNotIdempotent | reconpilot/utils/helpers.py:56-59 | cutting to 200 characters after stripping can leave a trailing dot, which a second pass strips: sanitizing twice differs from sanitizing once |
| Helpers.SliceTo | reconpilot/utils/helpers.py:67 | `s[:k]` is a prefix of `s`, a negative `k` counting from the end |
| Helpers.TruncateSpec | reconpilot/utils/helpers.py:63-67 | a string that fits is returned unchanged; a longer one, when the suffix fits, is cut to exactly `max_length` characters ending in the suffix |
| Helpers.TruncateString | reconpilot/utils/helpers.py:63-67 | a string that fits is returned unchanged; a longer one ends in the suffix, preceded by a prefix of the string |
| Helpers.TruncateShortLimit | reconpilot/utils/helpers.py:63-67 | when the suffix is longer than `max_length` the slice index is negative and the result outgrows the limit |
| Generator.FindingsBySeverity | reconpilot/reports/generator.py:120-122 | the loop leaves each finding in the list of its severity, as `SeverityGroupsSpec` characterises |
| Generator.SeverityGroupsStep | reconpilot/reports/generator.py:121-122 | one more finding is appended to its severity's list only |
| Generator.AssetsByType | reconpilot/reports/generator.py:125-129 | the loop leaves each asset in the list of its type, as `TypeGroupsSpec` characterises |
| Generator.TypeGroupsStep | reconpilot/reports/generator.py:126-129 | one more asset creates its type's list when absent and is appended to it; other lists are unchanged |
| Generator.PrepareContext | reconpilot/reports/generator.py:117-143 | the context holds the session, both groupings and the duration of a completed session |
| Generator.SeverityGroupsSpec | reconpilot/reports/generator.py:120-122 | every severity has a list, and a finding is in a severity's list if and only if it is a finding of that severity |
| Generator.SeverityGroupsPartition | reconpilot/reports/generator.py:120-122 | the five lists together hold as many entries as there are findings |
| Generator.SeverityGroupsMatchCounters | reconpilot/reports/generator.py:120-122 | the critical and high lists are as long as the session's critical and high counts |
| Generator.TypeGroupsSpec | reconpilot/reports/generator.py:125-129 | the keys are exactly the types present, and an asset is in a type's list if and only if it is an asset of that type |
| Generator.LookupAt | reconpilot/reports/generator.py:76-114 | a report member is found under its key |
| Generator.StatisticsCounts | reconpilot/reports/generator.py:81-86 | the statistics give the numbers of assets and findings and the critical and high counts |
| Generator.ReportStatistics | reconpilot/reports/generator.py:81-86 | the JSON report carries the statistics object |
| Generator.JsonReport | reconpilot/reports/generator.py:74-115 | the report is an object with the keys `session_id`, `target`, `started_at`, `completed_at`, `statistics`, `assets` and `findings` in that order, the session id and target as given, and `completed_at` null exactly when the session has no completion time |
| Generator.ReportAssets | reconpilot/reports/generator.py:87-98 | the JSON report lists one entry per asset, in session order |
| Generator.ReportFindings | reconpilot/reports/generator.py:99-113 | the JSON report lists one entry per finding, in session order |
| Generator.EntryFields | reconpilot/reports/generator.py:88-111 | an asset entry carries its type and value; a finding entry its severity name and title |
| Generator.ParseFormat | reconpilot/reports/generator.py:45-52 | a format is accepted if and only if it is `html`, `md` or `json` |
| Generator.Generate | reconpilot/reports/generator.py:24-58 | a missing session or an unknown format raise `ValueError`; otherwise `open` on the output path raises whatever the file system makes it raise, and else the rendered HTML or Markdown, or the JSON text, is written to that path |
| Generator.SlashTargetNestsTheReport | reconpilot/reports/generator.py:37-42 | for a target holding a `/`, such as any URL, the default file name holds a `/`, so the report lies in a `report_...` directory that `generate` never creates |
| Generator.OutputPath | reconpilot/reports/generator.py:37-42 | the path text before `Path` normalises it: a non-empty output file as given; otherwise starting with `<reports_dir>/report_<target>` and ending in `.<format>` |
| SubdomainLines.OutputLines | reconpilot/tools/adapters/subfinder.py:28 | the output is stripped and split on newlines, giving at least one line |
| SubdomainLines.LineAssets | reconpilot/tools/adapters/subfinder.py:29-37 | a line gives exactly one `subdomain` asset, valued by the stripped line, if and only if that stripped line is non-empty and contains a dot; otherwise none |
| SubdomainLines.Parse | reconpilot/tools/adapters/subfinder.py:24-44 | the line loop builds the assets line by line; the result is successful, has no findings, names the tool and keeps the raw output |
| SubdomainLines.AssetsBound | reconpilot/tools/adapters/subfinder.py:28-37 | at most one asset per output line |
| SubdomainLines.AssetValuesInLineOrder | reconpilot/tools/adapters/subfinder.py:28-37 | the asset values are exactly the stripped lines that look like hosts, in line order |
| SubdomainLines.AssetsFromLines | reconpilot/tools/adapters/subfinder.py:28-37 | every asset is a `subdomain` from the tool, valued by some stripped line that looks like a host |
| SubdomainLines.LinesGiveAssets | reconpilot/tools/adapters/subfinder.py:28-37 | every stripped line that looks like a host yields its asset |
| Subfinder.BuildCommand | reconpilot/tools/adapters/subfinder.py:20-22 | the argv is `subfinder -d <target> -silent`, the target one argument of its own |
| Subfinder.ParseOutput | reconpilot/tools/adapters/subfinder.py:24-44 | the result is the shared line parse under the name `subfinder` |
| Subfinder.ParsePartial | reconpilot/tools/adapters/subfinder.py:46-48 | partial output is parsed exactly like the whole output |
| Amass.BuildCommand | reconpilot/tools/adapters/amass.py:21-23 | the argv is `amass enum -d <target> -passive` |
| Amass.ParseOutput | reconpilot/tools/adapters/amass.py:25-45 | the result is the shared line parse under the name `amass` |
| Amass.ParsePartial | reconpilot/tools/adapters/amass.py:47-49 | partial output is parsed exactly like the whole output |
| Assetfinder.BuildCommand | reconpilot/tools/adapters/assetfinder.py:20-22 | the argv is `assetfinder --subs-only <target>` |
| Assetfinder.ParseOutput | reconpilot/tools/adapters/assetfinder.py:24-44 | the result is the shared line parse under the name `assetfinder` |
| Assetfinder.ParsePartial | reconpilot/tools/adapters/assetfinder.py:46-48 | partial output is parsed exactly like the whole output |
| Rustscan.BuildCommand | reconpilot/tools/adapters/rustscan.py:23-30 | the argv is `rustscan -a <target> --ulimit 5000 --greppable` |
| Rustscan.ParseOutput | reconpilot/tools/adapters/rustscan.py:32-60 | the line loop gives the flat map of the per-line assets over the stripped output's lines; successful, raw output kept |
| Rustscan.ParsePorts | reconpilot/tools/adapters/rustscan.py:43-53 | the port loop keeps, in order, the stripped comma-separated pieces that are all digits, as `ip:port` assets |
| Rustscan.PortAssetsAreDigitPieces | reconpilot/tools/adapters/rustscan.py:43-53 | every port asset comes from an all-digit stripped piece of the list |
| Rustscan.DigitPiecesGiveAssets | reconpilot/tools/adapters/rustscan.py:43-53 | every all-digit stripped piece gives its port asset |
| Rustscan.LineAssetsShape | reconpilot/tools/adapters/rustscan.py:37-53 | a line the arrow pattern does not match gives nothing; any asset of a line is `port` valued `ip:port` with an all-digit port in its metadata |
| Rustscan.ParsedShape | reconpilot/tools/adapters/rustscan.py:32-60 | the result is successful, has no findings, and every asset is a rustscan `port` with an all-digit `port` metadata entry |
| Masscan.BuildCommand | reconpilot/tools/adapters/masscan.py:28-36 | the argv is `masscan <target> -p1-65535 --rate=1000 -oJ -`, the target right after the binary |
| Masscan.ParseOutput | reconpilot/tools/adapters/masscan.py:38-78 | the line loop skips empty and `#` lines and undecodable lines, stops with the exception a wrongly shaped decoded line raises, and otherwise collects every line's assets |
| Masscan.ParseLine | reconpilot/tools/adapters/masscan.py:51-69 | a decoded line that is not an object raises; its `ports` list is iterated and each entry's assets collected, an entry that is not an object raising |
| Masscan.SkippedLines | reconpilot/tools/adapters/masscan.py:43-50 | empty lines, comments and lines `json.loads` rejects contribute nothing |
| Masscan.EntryAsset | reconpilot/tools/adapters/masscan.py:55-69 | a port entry gives an asset exactly when the ip and the port are truthy, valued `ip:port`, with the port as a string and the protocol defaulting to tcp |
| Masscan.LineAssetsShape | reconpilot/tools/adapters/masscan.py:58-69 | every asset of a line is a masscan `port` with `port` and `protocol` metadata |
| Masscan.ParsedAssets | reconpilot/tools/adapters/masscan.py:38-78 | a parse that does not raise is successful, has no findings, and gives only masscan port assets |
| Dnsx.BuildCommand | reconpilot/tools/adapters/dnsx.py:22-24 | the argv is `dnsx -silent -json -a -aaaa -host <target>` |
| Dnsx.AAssets | reconpilot/tools/adapters/dnsx.py:38-46 | one `ip` asset per A answer, in answer order, carrying the host |
| Dnsx.AaaaAssets | reconpilot/tools/adapters/dnsx.py:49-57 | one `ip` asset per AAAA answer, in answer order, carrying the host and marked ipv6 |
| Dnsx.ParseOutput | reconpilot/tools/adapters/dnsx.py:26-66 | the line loop skips empty and undecodable lines, stops with the exception a wrongly shaped record raises, and otherwise collects every line's assets |
| Dnsx.ParseData | reconpilot/tools/adapters/dnsx.py:35-57 | the A loop then the AAAA loop give the record's assets; a record that is not an object, or answers that are not iterable, raise |
| Dnsx.SkippedLines | reconpilot/tools/adapters/dnsx.py:31-34 | empty lines and lines `json.loads` rejects contribute nothing |
| Dnsx.RecordAssets | reconpilot/tools/adapters/dnsx.py:35-57 | a record whose `a` and `aaaa` are lists or absent (absent reading as `[]`) gives one asset per answer, every A asset before every AAAA asset, each with the record's host, only the AAAA ones marked ipv6 |
| Dnsrecon.BuildCommand | reconpilot/tools/adapters/dnsrecon.py:23-25 | the argv is `dnsrecon -d <target> -j /dev/stdout` |
| Dnsrecon.ParseRecord | reconpilot/tools/adapters/dnsrecon.py:56-88 | a record that is not an object raises; otherwise the record's assets are appended to those given |
| Dnsrecon.RecordKinds | reconpilot/tools/adapters/dnsrecon.py:56-88 | A with an address gives an `ip` asset with the name as hostname; AAAA the same marked ipv6; CNAME, NS or MX with a name a `dns_record` naming the type; a record gives an asset if and only if one of these holds |
| Dnsrecon.ParseTextOutput | reconpilot/tools/adapters/dnsrecon.py:90-102 | the fallback appends one `ip` asset per dotted quad found in the output, in order, except 127.0.0.1 and 0.0.0.0 |
| Dnsrecon.ParseRecords | reconpilot/tools/adapters/dnsrecon.py:38-40 | the items of a decoded list are read in order until one raises |
| Dnsrecon.ParseOutput | reconpilot/tools/adapters/dnsrecon.py:27-54 | blank and undecodable lines are skipped; records are read until one raises, and then the text fallback runs on the whole output after the assets gathered so far; always successful |
| Dnsrecon.GatherFromConcat | reconpilot/tools/adapters/dnsrecon.py:33-44 | reading two runs of records is reading the first, then the second from where it left off |
| Dnsrecon.GatherFromFailed | reconpilot/tools/adapters/dnsrecon.py:45-47 | once a record has raised, no further record is read |
| Dnsrecon.FirstRaise | reconpilot/tools/adapters/dnsrecon.py:33-47 | the index of the first record that raises: all before it complete, and it raises, or it is the end |
| Dnsrecon.GatheredIsLongestPrefix | reconpilot/tools/adapters/dnsrecon.py:32-47 | the JSON reading keeps exactly the assets of the records before the first one that raises, and has failed exactly when some record raised |
| Dnsrecon.LineRecordsOfList | reconpilot/tools/adapters/dnsrecon.py:34-44 | blank and undecodable lines hold no records; a decoded list is read item by item, in order |
| Dnsrecon.TextAssetsNotLocal | reconpilot/tools/adapters/dnsrecon.py:93-102 | the fallback reports only dotted quads, never a local address |
| Dnsrecon.ParsedAssets | reconpilot/tools/adapters/dnsrecon.py:27-54 | the result is successful with no findings; without a failure its assets are those of the records; after a failure the extra assets are non-local dotted quads |
| Httpx.BuildCommand | reconpilot/tools/adapters/httpx.py:22-32 | the argv is `httpx -silent -json -status-code -tech-detect -title -host <target>` |
| Httpx.ParseOutput | reconpilot/tools/adapters/httpx.py:34-102 | the line loop skips empty and undecodable lines, stops with the exception a wrongly shaped record raises, and otherwise collects every line's assets and findings |
| Httpx.ParsePartial | reconpilot/tools/adapters/httpx.py:104-106 | partial output is parsed exactly like the whole output |
| Httpx.RecordFound | reconpilot/tools/adapters/httpx.py:45-91 | a record with a URL and a string title gives exactly one `http_service` asset for the URL with its status, title and technologies; the protected-resource finding appears if and only if the status is 401 or 403, the sensitive-page finding if and only if the lowered title holds a sensitive keyword; both medium; a record without a URL gives nothing |
| Httpx.SkippedLines | reconpilot/tools/adapters/httpx.py:40-44 | empty and undecodable lines give nothing |
| Httpx.LineShape | reconpilot/tools/adapters/httpx.py:50-91 | a line gives at most one `http_service` asset, without a `technology` entry, and two medium findings, all by httpx |
| Httpx.ParsedAssets | reconpilot/tools/adapters/httpx.py:34-102 | an asset is in the result if and only if some line gave it; all assets are `http_service` and all findings medium |
| Httpx.ParsedNeverWordPress | reconpilot/tools/adapters/httpx.py:50-55 | no reported service satisfies the WordPress rule's condition (rules.py:100 reads `technology`, httpx stores `technologies`), so httpx output never chains wpscan |
| Nuclei.BuildCommand | reconpilot/tools/adapters/nuclei.py:23-30 | the argv is `nuclei -u <target> -json -silent` |
| Nuclei.ParseOutput | reconpilot/tools/adapters/nuclei.py:32-85 | the line loop skips empty and undecodable lines, stops with the exception a wrongly shaped record raises, and otherwise collects one finding per record |
| Nuclei.ParsePartial | reconpilot/tools/adapters/nuclei.py:87-89 | partial output is parsed exactly like the whole output |
| Nuclei.SeverityNamesRoundTrip | reconpilot/tools/adapters/nuclei.py:51-58 | each severity's own name maps back to that severity |
| Nuclei.UnknownSeverityIsInfo | reconpilot/tools/adapters/nuclei.py:58 | a name none of the five severities has maps to info |
| Nuclei.RecordGivesFinding | reconpilot/tools/adapters/nuclei.py:43-75 | a record gives one finding: severity read case-insensitively, titled by the template name or else the template id, at the matched location, described by the description or else `Nuclei template: <id>`, the record as evidence, three recommendations |
| Nuclei.RecordFinding | reconpilot/tools/adapters/nuclei.py:43-75 | a record that is not an object raises `AttributeError`; a finding made is nuclei's, with the record as evidence, the three recommendations, and the template id as metadata |
| Nuclei.NonObjectRecordRaises | reconpilot/tools/adapters/nuclei.py:43 | a decoded record that is not an object raises AttributeError rather than being skipped |
| Nuclei.ParsedFindings | reconpilot/tools/adapters/nuclei.py:36-78 | a completed parse has at most one finding per line, each discovered by nuclei |
| Whatweb.BuildCommand | reconpilot/tools/adapters/whatweb.py:22-24 | the argv is `whatweb --log-json=/dev/stdout <target>` |
| Whatweb.ParseOutput | reconpilot/tools/adapters/whatweb.py:26-68 | the line loop skips empty and undecodable lines, stops with the exception a wrongly shaped record raises, and otherwise collects every record's assets |
| Whatweb.ParseRecord | reconpilot/tools/adapters/whatweb.py:36-58 | the plugin loop over a record's `plugins` items gives the record's assets; a record that is not an object, or plugins without `items`, raise |
| Whatweb.PluginWithoutVersion | reconpilot/tools/adapters/whatweb.py:41-58 | a plugin without a version gives one `technology` asset named by the plugin alone, with an empty version |
| Whatweb.PluginWithVersion | reconpilot/tools/adapters/whatweb.py:41-58 | a plugin whose version list starts with a non-empty string `v` gives `name v`, keeping `v` as the version |
| Whatweb.EmptyVersionListRaises | reconpilot/tools/adapters/whatweb.py:41 | an empty version list raises IndexError out of the parse |
| Whatweb.NonObjectPluginSkipped | reconpilot/tools/adapters/whatweb.py:40 | plugin data that is not an object gives nothing |
| Whatweb.RecordAssetsNamePlugins | reconpilot/tools/adapters/whatweb.py:39-58 | a record's assets correspond one to one, in order, with its object-valued plugins, the k-th asset naming the k-th such plugin |
| Wafw00f.BuildCommand | reconpilot/tools/adapters/wafw00f.py:22-24 | the argv is `wafw00f <target>` |
| Wafw00f.WafName | reconpilot/tools/adapters/wafw00f.py:36 | the firewall name is the text right after the first `(` of the line, up to the next `(` or `)` or the end of the line, and holds neither parenthesis |
| Wafw00f.ParseOutput | reconpilot/tools/adapters/wafw00f.py:26-71 | every line that mentions `is behind` or `detected` in any case and carries both parentheses gives a `waf` asset and an informational finding; always successful |
| Wafw00f.FindingsMatchAssets | reconpilot/tools/adapters/wafw00f.py:38-63 | assets and findings come in pairs: the k-th finding is informational, titled by the k-th firewall's name, at the output's first URL |
| Wafw00f.AssetsAreDetections | reconpilot/tools/adapters/wafw00f.py:32-44 | the assets are exactly the detection lines, in order, each named by its parenthesised text |
| Wafw00f.HostIsUrlOrUnknown | reconpilot/tools/adapters/wafw00f.py:47-48 | the finding's host is a URL of the output or `unknown` |
| Whois.BuildCommand | reconpilot/tools/adapters/whois.py:22-24 | the argv is `whois <target>` |
| Whois.ParseOutput | reconpilot/tools/adapters/whois.py:26-86 | the registrar, then the creation date, then one asset per `Name Server:` line in order, and the privacy finding; always successful |
| Whois.AssetsShape | reconpilot/tools/adapters/whois.py:31-62 | at most one registrar and one creation date, both `whois_info`, then exactly one asset per name server |
| Whois.NameServersLowerCase | reconpilot/tools/adapters/whois.py:54-62 | every name server asset is a `nameserver` in lower case |
| Whois.RegistrarAsset | reconpilot/tools/adapters/whois.py:32-40 | the registrar asset appears if and only if the label matches, and is `Registrar: ` followed by the stripped value |
| Whois.PrivacyFinding | reconpilot/tools/adapters/whois.py:64-78 | one informational finding if and only if the record mentions redaction or privacy in any case, filed under the record's domain or `unknown` |
| Nikto.BuildCommand | reconpilot/tools/adapters/nikto.py:23-29 | the argv is `nikto -h <target> -nointeractive` |
| Nikto.ParseOutput | reconpilot/tools/adapters/nikto.py:31-78 | one finding per `+` line whose stripped item is longer than ten characters, in line order, filed under the `Target:` host or `unknown`; always successful, no assets |
| Nikto.SeverityPrecedence | reconpilot/tools/adapters/nikto.py:46-52 | an item with a high keyword is high whatever else it says; one with only a low keyword is low; the severity is info if and only if no keyword of any group occurs |
| Nikto.OsvdbKept | reconpilot/tools/adapters/nikto.py:55-58 | the metadata is empty if and only if no OSVDB reference is cited, and otherwise keeps the reference's digits |
| Nikto.FindingsAreItems | reconpilot/tools/adapters/nikto.py:40-71 | at most one finding per line; every finding is `Nikto Finding` at the target host, with an item of more than ten characters as both description and evidence |
| Nikto.ItemLineGivesFinding | reconpilot/tools/adapters/nikto.py:42-71 | a `+` line with a long enough item gives exactly its finding, with the keyword severity and the OSVDB metadata |
| Wpscan.BuildCommand | reconpilot/tools/adapters/wpscan.py:23-30 | the argv is `wpscan --url <target> --format json --random-user-agent` |
| Wpscan.ParseOutput | reconpilot/tools/adapters/wpscan.py:32-123 | an undecodable output gives an empty successful result; otherwise the version asset and finding, then the plugin findings, then the theme findings, or the exception a wrongly shaped part raises |
| Wpscan.ParseSection | reconpilot/tools/adapters/wpscan.py:70-112 | the component loop of the plugins or themes section collects each component's findings in order |
| Wpscan.ParseComponent | reconpilot/tools/adapters/wpscan.py:73-90 | the vulnerability loop gives one finding per entry of the component's `vulnerabilities` |
| Wpscan.UndecodableOutput | reconpilot/tools/adapters/wpscan.py:114-115 | an output that is not JSON gives a successful, empty result |
| Wpscan.VersionReport | reconpilot/tools/adapters/wpscan.py:44-68 | a version object gives the `WordPress <number>` asset if and only if the number is truthy, and the high outdated-version finding if and only if its status is `insecure` |
| Wpscan.VulnReport | reconpilot/tools/adapters/wpscan.py:74-90 | a vulnerability gives one finding of its kind's severity, titled by its `title` or the kind's default, naming the component, with the vulnerability as evidence |
| Wpscan.ComponentSeverity | reconpilot/tools/adapters/wpscan.py:72-112 | every finding of a component has its kind's severity, the target as host, and is by wpscan |
| Wpscan.SectionSeverity | reconpilot/tools/adapters/wpscan.py:70-112 | every plugin finding is high and every theme finding medium |
| Wpscan.NonObjectComponentRaises | reconpilot/tools/adapters/wpscan.py:73 | a section entry that is not an object raises AttributeError out of the parse |
| Nmap.BuildCommand | reconpilot/tools/adapters/nmap.py:23-32 | the argv is `nmap -sV -sC --top-ports 1000 -oX - <target>`, the target last |
| Nmap.ParseOutput | reconpilot/tools/adapters/nmap.py:34-134 | an unparsable document gives an empty successful result; otherwise the host loop collects every host's results in document order |
| Nmap.ParseHost | reconpilot/tools/adapters/nmap.py:43-122 | a host without an IPv4 or IPv6 address gives nothing; otherwise the port loop collects each port's asset and findings in order |
| Nmap.UnparsableOutput | reconpilot/tools/adapters/nmap.py:124-126 | an output `ElementTree` rejects gives a successful, empty result |
| Nmap.PortReport | reconpilot/tools/adapters/nmap.py:53-80 | a port that is not open gives nothing; an open one gives exactly one `port` asset valued `addr:portid`, and at most two findings |
| Nmap.PortFindings | reconpilot/tools/adapters/nmap.py:82-122 | a finding belongs to an open port if and only if it is the medium insecure-service finding of a telnet, ftp or smtp service, or the high exposed-database finding of a database port |
| Nmap.DatabasePorts | reconpilot/tools/adapters/nmap.py:100-107 | exactly the ports 3306, 5432, 27017, 6379 and 1433 are database ports |
| Nmap.HostWithoutAddress | reconpilot/tools/adapters/nmap.py:44-48 | a host without an IPv4 or IPv6 address element gives nothing |
| Nmap.Ipv4Preferred | reconpilot/tools/adapters/nmap.py:44-50 | an IPv4 address wins over an IPv6 one |
| Nmap.ReportShape | reconpilot/tools/adapters/nmap.py:34-134 | every asset of a report is an nmap `port` asset, and there are at most two findings per asset |
| Nmap.HostShape | reconpilot/tools/adapters/nmap.py:43-122 | a host's assets are nmap `port` assets, with at most two findings per asset |

## Left out

- Concurrency. `asyncio.create_task`, the `asyncio.sleep` waits and awaiting async callbacks are left out. Each orchestrator method is one synchronous step, so the model states no global bound on parallel tasks; the source does not enforce one either.
- The whole-scan loop of `start` is left out; `Begin`, `Step` and `Finish` model its pieces. The error `start` logs when the loop raises is left out too, because the loop's only calls are non-raising decisions and task launches.
- Subprocesses. Process spawning, stream reading, `cancel` and process termination in `tools/base.py` are left out. `execute` is modelled over an abstract trace of what reading stdout produced.
- `is_available` (`shutil.which`) is the membership of the binary in a given set `onPath`.
- Library decoding. `json.loads`, `json.dumps` and `xml.etree.ElementTree.fromstring` are parameters of the adapters that use them, and their results are decoded datatypes. Regular expressions are written out as matchers. `\d`, `\w` and case folding are ASCII only, whereas Python's `re` also matches Unicode digits and letters in `str` patterns.
- Time and ids. `datetime.now()` readings are integer `now` parameters. `uuid4` ids are omitted, so tasks are told apart by object identity, which is what dataclass equality on distinct uuids amounts to.
- `format_timestamp` (helpers.py:26-30) formats a `datetime`, or the current time. Timestamps are opaque integers here, so it is left out.
- `Helpers.FormatDuration` takes an integer number of seconds. The source takes a float, and its `int()` truncation toward zero is not modelled.
- Floats. Scores and progress values are whole numbers in the source and are `int` here.
- Follow-up tasks carry `metadata["target"]` only. The `asset_id` entry is left out along with asset ids.
- Exceptions are identified by their class name. `str(e)` in `_execute_task` is the message the stream's exception carried.
- Event payloads are modelled for the events the orchestrator inspects. The ids inside `task_id`/`session_id`/`asset_id`/`finding_id` payload entries are left out with the ids.
- What a subscriber callback does is left out. `Publish` returns the callbacks it calls, in order.
- Report rendering. Jinja2 rendering, the timestamped file name's clock reading and the bytes written by `generate` are left out; whether `open` fails is a parameter. A rendered report is the template's name with its context, and the JSON text is `dumps` of the modelled document. The lookup of the session in the database is a parameter.
- `database.py`, `cli.py`, `config.py`, the dashboard and the scripts are not part of this model. They hold persistence, the command line, settings files and the user interface.
- The `ScanConfig` fields `scope`, `exclude`, `passive_only`, `stealth` and `timeout` are never read by the core and are not modelled.
- Dnsx.AAsset, Dnsx.AaaaAsset, Dnsrecon.RecordAssets, Dnsrecon.ParseRecord, Httpx.ServiceAsset, Httpx.ProtectedFinding, Httpx.SensitiveFinding, Nuclei.RecordFinding, Wpscan.OutdatedFinding and Wpscan.VulnFindings store a decoded value that is not a string as its `str()` text (`Json.Str`). The source stores the raw value, so for a record such as `{"host": "a.com", "a": [1]}` the orchestrator's scoring (`value.lower()`, scoring.py:31-32) raises and the task fails, where the model completes it.
- Strings.Lower, Strings.Upper and Strings.IsDigit are ASCII only. Python's `str.lower`, `str.upper` and `str.isdigit` also map or accept other Unicode characters: nikto's `WEA\u212A` (KELVIN SIGN) lowers to `weak` and gives a LOW finding (nikto.py:51) where the model gives INFO, and rustscan accepts Arabic-Indic digits as a port (rustscan.py:45) where the model skips them.
- Json.Repr always quotes strings with `'` and escapes nothing. Python's `repr` switches to `"` for a string holding `'` (`"it's"`) and escapes backslashes and control characters.
- Generator.AssetJson and Generator.FindingJson leave out the `id` and `timestamp` keys of each entry (generator.py:89-107), since assets and findings carry no ids or timestamps here.
- Orchestrator.Orchestrator.ExecuteTask takes the exception that ends a task's stream as a parameter. In the source only `build_command` (base.py:86, outside `execute`'s `try`) and the orchestrator's own result handling can raise there; `execute` turns every other failure into an unsuccessful result. Every modelled `BuildCommand` is total and the handlers never raise, so `ExecuteToolTask` passes no exception.
- Generator.OutputPath, Generator.Generate: the path is the plain text `generate` builds, without `pathlib`'s normalisation, which collapses `//`, drops `.` parts and a trailing `/` (so `out//r.html` is opened as `out/r.html`). Which directories exist is not modelled: for a target holding a `/`, as every URL target does, the default path lies in a directory `generate` does not create, and `open` then raises `FileNotFoundError` (`SlashTargetNestsTheReport` shows where the `/` lands). The model gets that outcome only through its `openError` parameter.
