# KubeGo server core: a verified model

KubeGo is a web server that manages KubeVirt machines. Around its Kubernetes plumbing it runs a
number of small stateful protocols, each guarded by a mutex, and a few text codecs. This project
models them in Dafny and proves what holds of every interleaving, every clock, every chunking of
a stream and every reply of a language model.

Each module follows one source file.

| module | models |
|---|---|
| AnsibleRun, AnsibleQueue | output broadcaster of a playbook run; queue of automatic runs |
| PortForwards | two indexes over shared port-forward instances, with racing openers |
| EventLog, EventLogLaws | JSONL file with append and rotation, line count, cache, queries; what a query answers |
| LlmTools, Agent, AgentLaws | the chat agent's loop against an adversarial model; what a run executes, shows and tells |
| RateLimit, Login, Sessions | sliding-window limiters, the login flow, session tokens |
| Scheduler | the minute ticker and its history |
| Shell | shell quoting against a reference reading of POSIX sh |
| Sse | two incremental decoders of server-sent events |
| CloneName | fresh names for clones |
| CloudInit, CloudInitLaws | rewriting of cloud-init documents; what the finished document holds |
| Text | decimals, splitting, joining, trimming, substrings |

How the modules are built. Where the source changes state under a lock, a `State` value and a
function `Next` describe one locked stretch of code, `Reach` the state after any list of such
steps, and the lemmas speak about every list. A class with the source's fields performs the steps;
each of its methods states the whole new state by that function. Values that several parties may
see (channels, port-forward instances) are heap objects. Loops of the source are loops here.
Methods that must not be called twice or too late in the original (closing a channel, stopping a
tunnel) have that as a precondition, so a proof that a loop is well-formed is a proof that it never
panics or stops a tunnel twice.  The Laws modules tell what an operation does by its inputs and
outputs alone, without the functions that specify it.

Conventions and assumptions.

- Clock readings are integers passed in. Sweeps and the reaper read the clock before they take the
  lock, so their readings may be late by any amount; readings taken under a lock are in order.
- JSON, YAML, SHA-256, lower-casing and time parsing are function-valued parameters. Assumed of
  them: `EventLog.Lawful` (an event is marshalled to one non-empty line and parsed back) and
  `CloudInit.Lawful` (a document is parsed back from its marshalled text).
- Session tokens are fresh (32 random bytes), and no two port-forwards are opened at the same
  nanosecond; the IDs' freshness then follows from their format.
- A string stands for the bytes or characters of the source; white space is ASCII white space.
- Where code and documentation differ the code is followed. Properties one would expect and the
  code does not keep are stated with an input that breaks them and the exact condition for them:
  a query with a cursor returns what comes after the cursor in the file, while its documentation
  says "before this one" (`CursorGoesForward`, `CursorPageAsDocumentedIff`, `LoadMoreRepeats`);
  several playbook runs can be under way at once (`BothStart`, `DequeueBesideManual`,
  `OneRunIff`); concurrent logins can exceed the maximum of failures (`BoundIsReached`,
  `MaxIsKeptIff`); a forward asked for before a cluster switch can come back after it
  (`EveryStageOccurs`, `CleanSwitchIff`), and can lead to another cluster than its context says
  (`LeadsElsewhere`, `LeadsWhereItSaysIff`); appends to a file that was not well-formed leave the
  count wrong until the next rotation (`CountIsRightIff`); password entries that the document
  holds as a list are overwritten (`PasswordListLost`, `PasswordEntriesStayIff`,
  `CreatedPasswordEntries`); a password line may be missing from the chpasswd
  list (`PasswordLineHidden`, `CreatedPasswordLine`); a schedule fires twice at one local time
  when the clock goes back (`TwiceIff`); a trimmed conversation can show tool messages without the
  reply they answer (`LongBatchIsCut`, `RequestsAnchoredIff`); the text hashed for a bulk confirmation is ambiguous for
  arguments that are not JSON (`BulkTextCollides`, `BulkTextTellsApart`).

## Model

| member | source | states |
|---|---|---|
| `AnsibleRun.SubscribersAreTheOpenChannels` | internal/api/ansible_runner.go:28-79 | in every interleaving the subscriber list holds exactly the channels that are open and not unsubscribed, each once, and is empty once the run is over; so nothing is sent to or closed on a closed channel |
| `AnsibleRun.Delivery` | internal/api/ansible_runner.go:28-79 | snapshot ++ received ++ pending is a subsequence of the output, and equals the output up to the channel's last attached moment if and only if no line ever found its buffer full |
| `AnsibleRun.OutputIsEveryLine` | internal/api/ansible_runner.go:28-31 | the log is every line added, in order, whether or not the run is over |
| `AnsibleRun.StatusIsLastFinish` | internal/api/ansible_runner.go:40-54 | running exactly until a finish; then the exit code is that of the last finish, and success exactly if it is 0 |
| `AnsibleRun.ClosedIff` | internal/api/ansible_runner.go:40-79 | a channel is closed exactly if it was attached when the run was finished |
| `AnsibleRun.ReaderGetsAll` | internal/api/handlers_ansible_run.go:253-270 | a reader that goes on receiving gets the buffered lines, in order, and in the end all of them |
| `AnsibleRun.Channel.TrySend` | internal/api/ansible_runner.go:32-37 | a non-blocking send on an open channel: the line is buffered, or lost when 256 are pending |
| `AnsibleRun.Channel.Receive` | internal/api/ansible_runner.go:57-68 | a receive takes the oldest buffered line |
| `AnsibleRun.Run.AddLine` | internal/api/ansible_runner.go:28-38 | the loop offers the line to every subscriber and to no other channel, without ever sending on a closed one |
| `AnsibleRun.Run.CloseAll` | internal/api/ansible_runner.go:49-52 | closes each subscriber's channel once and leaves the others alone |
| `AnsibleRun.Run.Finish` | internal/api/ansible_runner.go:40-54 | status from the exit code, all subscribers closed, the list emptied |
| `AnsibleRun.Run.Subscribe` | internal/api/ansible_runner.go:57-68 | a snapshot of the whole output, and a new attached channel exactly while the run is running |
| `AnsibleRun.Run.Unsubscribe` | internal/api/ansible_runner.go:70-79 | removes the one occurrence of the channel, if any, keeping the order of the others |
| `AnsibleQueue.FirstInFirstOut` | internal/api/ansible_runner.go:208-255 | what joined the queue is what left it followed by what waits, in order, in every interleaving |
| `AnsibleQueue.Conservation` | internal/api/ansible_runner.go:208-255 | every request is handed to startFunc, waiting, or dropped by a clear: none lost, none doubled |
| `AnsibleQueue.ExactlyOnePlace` | internal/api/ansible_runner.go:208-255 | every request, told apart by its number even from equal ones, is in exactly one of the three places |
| `AnsibleQueue.NumbersErased` | internal/api/ansible_runner.go:208-255 | the numbers change nothing: without them, what was handed over, waits and was dropped is the same |
| `AnsibleQueue.LaunchesAddUp` | internal/api/ansible_runner.go:208-239 | every decision to start a run ends in a started run, is given up, or is still on its way |
| `AnsibleQueue.OneTurnEach` | internal/api/ansible_runner.go:165-177 | a run takes its turn at the queue at most once, and not before it is over |
| `AnsibleQueue.OneRunIff` | internal/api/ansible_runner.go:208-239 | for every interleaving of requests, manual runs, launches, ends and dequeues: two runs are never under way, nor will be as launches take their course, exactly when every decision to start a run comes while the current run is over (the check enqueue makes and dequeueNext does not) and no earlier launch is on its way |
| `AnsibleQueue.WarrantedMeansAlone` | internal/api/ansible_runner.go:208-239 | that condition on the guards says the same as: no run under way and none being launched |
| `AnsibleQueue.BothStart` | internal/api/ansible_runner.go:208-221 | two requests that both find the runner idle: two runs are under way |
| `AnsibleQueue.DequeueBesideManual` | internal/api/ansible_runner.go:165-239 | a run started by hand before the ended one calls dequeueNext is forgotten by the runner, and the dequeued run starts beside it |
| `AnsibleQueue.Runner.Enqueue` | internal/api/ansible_runner.go:208-221 | queues behind a running run, otherwise hands the request over at once |
| `AnsibleQueue.Runner.DequeueNext` | internal/api/ansible_runner.go:224-239 | hands over the oldest waiting request and forgets the current run, whatever its status; with nothing waiting, neither |
| `AnsibleQueue.Runner.ClearQueue` | internal/api/ansible_runner.go:251-255 | drops everything that waits |
| `AnsibleQueue.Runner.CheckIdle` | internal/api/handlers_ansible_run.go:86-94 | a manual run goes ahead exactly when the run seen before is over |
| `AnsibleQueue.Runner.Start` | internal/api/ansible_runner.go:103-116 | a new running run becomes the current one |
| `AnsibleQueue.Runner.Finish` | internal/api/ansible_runner.go:128-177 | the run is over for its subscribers and for the runner, and owes a call of dequeueNext if its process ran |
| `AnsibleQueue.Runner.Clear` | internal/api/ansible_runner.go:199-205 | the current run is forgotten exactly if it is over |
| `PortForwards.PfKeyInjective` | internal/api/portforwards.go:56-58 | for validated machine names different targets have different keys, whatever the context contains |
| `PortForwards.PfIdInjective` | internal/api/portforwards.go:90 | an ID tells the machine, the port and the clock reading it was made at |
| `PortForwards.AlwaysInv` | internal/api/portforwards.go:64-203 | in every interleaving of cluster switch, reading the context, lookup, picking the client, open, commit, delete, touch, drop-all and sweep the two indexes agree, and every opened tunnel is in exactly one of in flight, registered in both, stopped |
| `PortForwards.OnePerTarget` | internal/api/portforwards.go:52-54 | at most one forward per context, machine and port |
| `PortForwards.StoppedOnce` | internal/api/portforwards.go:104-203 | a step stops only what is in flight or registered, and what is stopped is neither: no tunnel is stopped twice |
| `PortForwards.ReturnsRegistered` | internal/api/portforwards.go:60-115 | every successful EnsureOpen returns an entry for what was asked, registered in both indexes at that step exactly as returned |
| `PortForwards.LookupFinds` | internal/api/portforwards.go:65-81 | EnsureOpen finds a forward exactly if one is registered for what it asks, and returns it used now, with the new protocol and label where given and all else as it was |
| `PortForwards.CommitDecides` | internal/api/portforwards.go:104-114 | at the second lock the new tunnel is registered exactly if nothing is for its target; else it is stopped and the registered forward returned, used now |
| `PortForwards.DeleteExactly` | internal/api/portforwards.go:117-128 | deleting stops that forward and takes it out, and leaves every other one |
| `PortForwards.TouchOnly` | internal/api/portforwards.go:149-155 | a touch changes the last use of the forward for its target and nothing else |
| `PortForwards.SweepExactly` | internal/api/portforwards.go:191-203 | a sweep removes exactly the forwards idle for longer than 30 minutes and stops them; the others stay as they were |
| `PortForwards.RefreshedSurvives` | internal/api/portforwards.go:149-203 | a forward used at some moment stays registered with the same tunnel through any steps but its deletion and a drop-all, as long as sweeps come at most 30 minutes after that moment |
| `PortForwards.ReturnedSurvives` | internal/api/portforwards.go:60-115 | so does what EnsureOpen returns, counted from the last use it shows |
| `PortForwards.TouchedSurvives` | internal/api/portforwards.go:149-155 | so does what a touch finds, counted from the touch |
| `PortForwards.AfterDropAll` | internal/api/portforwards.go:64-166 | a forward asked for before a cluster switch is registered in some continuation exactly when its call of EnsureOpen was pending at the switch: before its lookup, opening its tunnel, or before its commit |
| `PortForwards.CleanSwitchIff` | internal/api/handlers_clusters.go:103-111 | no forward asked for a context before the switch ever shows up again exactly when no call for that context was pending |
| `PortForwards.EveryStageOccurs` | internal/api/portforwards.go:64-104 | each of the three pending stages is reached |
| `PortForwards.RegisteredForItsCall` | internal/api/portforwards.go:65-102 | what is registered carries the context its call had read |
| `PortForwards.LeadsWhereItSaysIff` | internal/api/portforwards.go:65-85 | the cluster a registered forward leads to is the one of its context exactly when the last switch between the two reads, if any, was to that context |
| `PortForwards.LeadsElsewhere` | internal/api/portforwards.go:65-85 | a call begun before a switch and served after it: registered under the old context, leading to the new cluster |
| `PortForwards.Instance.Stop` | internal/api/portforwards.go:28 | a tunnel is stopped only while it runs |
| `PortForwards.Manager.Outside` | internal/api/portforwards.go:65-88 | EnsureOpen reads the active context before it takes the lock and picks the client after it; neither, nor a switch or a failed opening, involves the manager |
| `PortForwards.Manager.Lookup` | internal/api/portforwards.go:68-81 | EnsureOpen under the first lock: refreshes the shared instance and returns its entry, or reports none |
| `PortForwards.Manager.Open` | internal/api/portforwards.go:85-102 | the instance for a new tunnel exists but no index holds it yet |
| `PortForwards.Manager.Commit` | internal/api/portforwards.go:104-114 | EnsureOpen after the second lock: registers the new instance in both indexes, or stops it and returns the winner refreshed |
| `PortForwards.Manager.Delete` | internal/api/portforwards.go:117-128 | stops and removes the forward from both indexes, or reports that there is none |
| `PortForwards.Manager.Touch` | internal/api/portforwards.go:149-155 | bumps the time of last use of the shared instance |
| `PortForwards.Manager.Sweep` | internal/api/portforwards.go:191-203 | the loop over the idle forwards performs exactly one Sweep step |
| `PortForwards.Manager.DropAll` | internal/api/portforwards.go:158-166 | the loop stops every registered tunnel once, then both indexes are empty |
| `EventLog.FileLinesOfRender` | internal/api/eventlog.go:54-57 | splitting and trimming undo joining: the lines read back are the lines written |
| `EventLog.NewestLinesKept` | internal/api/eventlog.go:92-124 | the file always holds the newest part of everything ever logged, at most 10000 lines, and all of it or at least 7500 |
| `EventLog.AlwaysAgrees` | internal/api/eventlog.go:49-182 | after opening any well-formed file and any sequence of Emits, while no rotation has failed, file, count and cache agree: count = lines on disk <= 10000, cache = the newest min(200, count) events in order |
| `EventLog.CountIsRightIff` | internal/api/eventlog.go:52-182 | for an arbitrary file and any sequence of Emits (rotations succeeding): the count is right exactly when nothing was written yet, or the file was empty or ended in one newline after some text, or it has been rotated since |
| `EventLog.FastPathRefinesScan` | internal/api/eventlog.go:212-308 | an unfiltered query from the cache gives the events, total and cursor of a full file scan; HasMore agrees exactly when the limit is below 200 or the log has at most 200 lines |
| `EventLog.CursorPage` | internal/api/eventlog.go:270-308 | a query with a cursor returns exactly the matching events after it in the file, newest first, cut at the limit, with HasMore exact |
| `EventLog.CursorPageAsDocumentedIff` | internal/api/eventlog.go:200 | the page is the documented one (the matching events before the cursor) exactly when no event but the cursor's own passes the filters |
| `EventLog.CursorGoesForward` | internal/api/eventlog.go:200 | three events, the cursor on the middle one: the newest is returned, not the oldest |
| `EventLog.SecondPageIsTheFirst` | internal/api/eventlog.go:255-327 | following NextBefore of a first page gives that page again without its oldest event, whatever the filters |
| `EventLog.LoadMoreRepeats` | internal/api/eventlog.go:212-253 | the same for the page served from the cache: no older event is ever reached |
| `EventLogLaws.QueryExactly` | internal/api/eventlog.go:255-327 | a scan answers with exactly the events of the file (after the cursor, if any) whose category, actor, resource and time pass each given filter: the newest, newest first, up to the limit; HasMore says exactly whether some are left out, and those are older |
| `EventLogLaws.InAnswerIff` | internal/api/eventlog.go:310-327 | an event is in an uncut answer exactly if it is in the file and passes every filter |
| `EventLogLaws.LaterSince` | internal/api/eventlog.go:320-325 | a later since drops exactly the events before it |
| `EventLogLaws.FiltersTogether` | internal/api/eventlog.go:310-327 | filters given together give the events that each of them gives |
| `EventLogLaws.GarbageIsSkipped` | internal/api/eventlog.go:77-86 | a line that is no event is passed over by scans and when the cache is filled |
| `EventLogLaws.LongLineEndsScan` | internal/api/eventlog.go:266-268 | a line that does not fit the scanner's buffer ends the scan |
| `EventLogLaws.OpenIff` | internal/api/eventlog.go:94-182 | the log stays open exactly as long as every rotation succeeds |
| `EventLogLaws.ClosedForGood` | internal/api/eventlog.go:134-160 | a closed log changes no more |
| `EventLog.FilteredQuery` | internal/api/eventlog.go:255-327 | a filtered query without cursor returns the matching events of the file, newest first, cut at the limit |
| `EventLog.CursorMissing` | internal/api/eventlog.go:270-281 | a cursor that no event carries gives an empty page |
| `EventLog.ReverseInPlace` | internal/api/eventlog.go:292-295 | the in-place loop reverses the slice |
| `EventLog.Log.constructor` | internal/api/eventlog.go:49-90 | opening a file: rotation when it is too long, the count, and the newest events in the cache |
| `EventLog.Log.RotateLocked` | internal/api/eventlog.go:94-124 | keeps the newest 7500 lines; every failure leaves the log closed |
| `EventLog.Log.Emit` | internal/api/eventlog.go:134-182 | append, count, cache and rotation; nothing changes when the file is closed or the write fails |
| `EventLog.Log.FromCache` | internal/api/eventlog.go:239-253 | the newest cached events, newest first |
| `EventLog.Log.ScanFile` | internal/api/eventlog.go:255-308 | the matching events of the file, newest first, cut at the limit |
| `EventLog.Log.Query` | internal/api/eventlog.go:212-237 | the limit is clamped to 1..200 (50 by default); without filters the cache answers, with filters the file |
| `Agent.BulkIdCanonical` | internal/api/llm_agent.go:27-38 | the bulk confirmation ID depends only on the multiset of state-changing calls |
| `Agent.ReorderingKeepsBulkId` | internal/api/llm_agent.go:27-38 | any reordering of the calls keeps the bulk ID |
| `Agent.BulkTextTellsApart` | internal/api/llm_agent.go:28-51 | while no call's text goes on with the separator where another's ends (no JSON text does), equal hashed texts mean the same multiset of calls' texts, and conversely |
| `Agent.BulkTextCollides` | internal/api/llm_agent.go:28-51 | with arguments that are not JSON, which are hashed as they are, two different pairs of calls are hashed alike |
| `Agent.OrderedUnique` | internal/api/llm_agent.go:35 | sorting is canonical: a multiset of strings has one ordered listing |
| `Agent.MakeBulkConfirmId` | internal/api/llm_agent.go:27-38 | the collecting loop gives that ID, and its count is the number of state-changing calls |
| `Agent.HandleCall` | internal/api/llm_agent.go:194-303 | the checks for one call in their order: unknown, read-only mode, confirmation, execution |
| `Agent.ExecuteCalls` | internal/api/llm_agent.go:186-304 | the loop over the calls of a reply, cut short when the client is gone |
| `Agent.RunAgentLoop` | internal/api/llm_agent.go:67-312 | the whole loop computes the outcome that the lemmas below speak about, for every behaviour of model, client and tools |
| `AgentLaws.ExecutedExactly` | internal/api/llm_agent.go:153-298 | in every turn of every run exactly those calls are executed, in order and as often as they stand there, that were reached before the client left, exist, are allowed by the mode, are confirmed if destructive, and come in a reply with at most one state-changing call unless its bulk ID was supplied |
| `AgentLaws.ExecutedIff` | internal/api/llm_agent.go:153-298 | the same of one call |
| `AgentLaws.RunEnds` | internal/api/llm_agent.go:84-311 | a run goes on exactly until a turn without answer, an answer without tool calls, a client that left, or 50 writes |
| `AgentLaws.WritesCounted` | internal/api/llm_agent.go:300-303 | the writes counted are the executed calls that are not read-only |
| `AgentLaws.ModelIsTold` | internal/api/llm_agent.go:92-311 | the next request is the reply and one tool message per call added to the conversation, cut to the 50 newest; each message is the tool's whole result if it ran, else why not |
| `AgentLaws.CallIsShown` | internal/api/llm_agent.go:194-296 | every reached call is shown with its start, its progress and its result (cut at 2000), or with why it did not run |
| `AgentLaws.BulkIsAsked` | internal/api/llm_agent.go:153-183 | a reply that waits for confirmation shows the one request with its bulk ID |
| `AgentLaws.TextIsShown` | internal/api/llm_agent.go:144-151 | text beside tool calls is shown before them, trimmed |
| `AgentLaws.FinalAnswer` | internal/api/llm_agent.go:109-142 | an answer without tool calls is the last thing shown: the streamed tokens, else its text, else an apology |
| `AgentLaws.LastWords` | internal/api/llm_agent.go:97-311 | a run that fails, or uses up its writes, ends with that error |
| `AgentLaws.ConfirmIdTellsApart` | internal/api/llm_agent.go:20-25 | a confirmation is of one tool with its arguments and of no other (hash without collisions) |
| `AgentLaws.ConfirmIsNotBulk` | internal/api/llm_agent.go:20-38 | it never counts as the confirmation of a whole reply |
| `AgentLaws.OtherCallsDoNotMatter` | internal/api/llm_agent.go:27-38 | read-only and unknown calls and the order do not matter to the bulk ID |
| `AgentLaws.BulkIdTellsApart` | internal/api/llm_agent.go:27-38 | the texts of the state-changing calls do |
| `AgentLaws.UsageIsSpent` | internal/api/llm_agent.go:68-104 | Done comes last and reports, component by component, the sum over the turns taken |
| `Agent.RunIsSafe` | internal/api/llm_agent.go:153-304 | whatever the model replies, only allowed tools run, in read-only mode only read-only ones, destructive calls only with their confirm ID, and nothing from a reply with two or more state-changing calls unless its bulk ID was supplied |
| `Agent.EachTurnExecuted` | internal/api/llm_agent.go:84-311 | what a run executes in each turn is what that reply allows, turn by turn |
| `Agent.WriteBudget` | internal/api/llm_agent.go:300-309 | at most 49 writes plus those of the last turn; at most 50 when no bulk ID was supplied |
| `Agent.StreamIsWellFormed` | internal/api/llm_agent.go:67-311 | every run streams (token | bulk confirm_required | tool_start tool_progress* (tool_done | confirm_required))* error? done, each tool's events under its own name |
| `Agent.EveryRequest` | internal/api/llm_agent.go:84-311 | every request shows at most 50 messages with the fresh system prompt first; before the next one every tool call was answered once, with its ID, in order |
| `Agent.RequestsAnchoredIff` | internal/api/llm_agent.go:605-614 | the requests show no tool message without the reply it answers exactly when none was trimmed right before a tool message |
| `Agent.LongBatchIsCut` | internal/api/llm_agent.go:605-614 | a reply with 49 or more tool calls is cut off from its answers in the next request |
| `Agent.UsageIsTotal` | internal/api/llm_agent.go:68-104 | the usage reported with done is the sum over the turns that took place |
| `LlmTools.AllowedTools` | internal/api/llm_tools.go:426-429 | the table built by init holds exactly the defined tools |
| `LlmTools.FilterToolsForMode` | internal/api/llm_tools.go:434-445 | in read-only mode exactly the read-only tools are offered, in order; otherwise all |
| `LlmTools.TablesDisjoint` | internal/api/llm_tools.go:19-38 | no tool is both read-only and destructive |
| `RateLimit.DecisionIsReference` | internal/api/middleware.go:226-322 | trimmed and swept lists decide as the plain rule on a log that is never trimmed |
| `RateLimit.SweepsChangeNothing` | internal/api/middleware.go:209-219 | inserting or removing sweeps, however late, changes no decision |
| `RateLimit.SweepLeaves` | internal/api/middleware.go:209-219 | a sweep leaves exactly the entries with a time not older than the window, as they were |
| `RateLimit.AtMostMaxPerWindow` | internal/api/middleware.go:302-322 | every interval (t - window, t] holds at most max admitted requests per IP |
| `RateLimit.RefusedExactlyWhenFull` | internal/api/middleware.go:302-322 | a request is refused exactly when its window already holds max admitted ones |
| `RateLimit.FailuresPerWindow` | internal/api/middleware.go:226-250 | with at most k attempts in flight any window holds at most max - 1 + k recorded failures per IP |
| `RateLimit.SequentialFailures` | internal/api/middleware.go:226-250 | attempts one after the other: at most max |
| `RateLimit.BoundIsReached` | internal/api/middleware.go:226-250 | for every max, k >= 1 and window some history with at most k attempts in flight has exactly max - 1 + k failures in one window |
| `RateLimit.MaxIsKeptIff` | internal/api/middleware.go:226-250 | max is kept by every history with at most k attempts in flight exactly when k <= 1 (or max is 0, or the window empty) |
| `RateLimit.CompactInPlace` | internal/api/middleware.go:309-315 | the in-place compaction leaves exactly the filtered times, in order |
| `RateLimit.SweepEntries` | internal/api/middleware.go:291-295 | the sweep loop removes exactly the stale entries |
| `RateLimit.ApiRateLimiter.Allow` | internal/api/middleware.go:302-322 | decision and new list of one API request |
| `RateLimit.ApiRateLimiter.Sweep` | internal/api/middleware.go:287-296 | one sweep of the API limiter |
| `RateLimit.LoginRateLimiter.Allow` | internal/api/middleware.go:226-243 | decision and trimmed list; nothing is counted yet |
| `RateLimit.LoginRateLimiter.Record` | internal/api/middleware.go:246-250 | a failed attempt is counted |
| `RateLimit.LoginRateLimiter.Sweep` | internal/api/middleware.go:210-219 | one sweep of the login limiter |
| `Login.HandleLogin` | internal/api/handlers_auth.go:91-130 | the order allow, body, credentials, session: status, limiter steps and session for every outcome |
| `Login.OneAtATime` | internal/api/handlers_auth.go:91-112 | calls handled one after the other never have two attempts in flight |
| `Login.CallCounts` | internal/api/handlers_auth.go:91-112 | a call counts against its address exactly if it is let through with wrong credentials, once |
| `Login.FailuresOneAfterTheOther` | internal/api/handlers_auth.go:91-112 | such calls leave at most max failures of one address in any window |
| `Sessions.ValidIsExact` | internal/api/handlers_auth.go:33-89 | Valid(token) holds exactly when the token was created, not deleted since, and now <= creation + ttl |
| `Sessions.ValidIff` | internal/api/handlers_auth.go:57-89 | told by the steps: created, no logout since, and now <= creation + ttl |
| `Sessions.PruningRemoves` | internal/api/handlers_auth.go:39-82 | a reaper pass leaves exactly the entries that had not expired; a lazy deletion takes out its token alone |
| `Sessions.PruningChangesNothing` | internal/api/handlers_auth.go:33-51 | reaper passes and lazy deletions never change an answer |
| `Sessions.SessionStore.Create` | internal/api/handlers_auth.go:57-67 | the token is stored with its expiry |
| `Sessions.SessionStore.Lookup` | internal/api/handlers_auth.go:69-82 | the answer of Valid, and whether a lazy deletion is due |
| `Sessions.SessionStore.Remove` | internal/api/handlers_auth.go:85-89 | the token is gone, nothing else changes |
| `Sessions.SessionStore.Reap` | internal/api/handlers_auth.go:39-46 | one reaper pass removes exactly the expired tokens |
| `Scheduler.AtMostOncePerMinute` | internal/api/scheduler.go:70-137 | over nondecreasing ticks and changing schedule lists an ID fires at most once per clock minute |
| `Scheduler.ExactlyOnce` | internal/api/scheduler.go:70-137 | ticks at most 60 s apart over a clock minute whose local time is that of an enabled HH:MM schedule, on one of its days, fire it in it exactly once if it stays listed and alone with its ID |
| `Scheduler.FiredIff` | internal/api/scheduler.go:70-137 | over any nondecreasing ticks an ID fires in a clock minute, and once, exactly when some schedule of it is due at some tick of the minute |
| `Scheduler.FiresAtFirstDue` | internal/api/scheduler.go:70-137 | it fires at a tick exactly when it is due there and was at no earlier tick of the same clock minute, whatever the zone offsets |
| `Scheduler.TwiceIff` | internal/api/scheduler.go:70-137 | over any nondecreasing ticks (offsets changing between minutes only) an ID fires at two ticks of one local time exactly when it is due at one local time before and after the zone offset went back |
| `Scheduler.SavedTimeMatches` | internal/api/scheduler.go:99-121 | a time saved as HH:MM matches exactly its hour and minute on its days |
| `Scheduler.DueIff` | internal/api/scheduler.go:84-121 | an HH:MM schedule is due exactly when it is enabled and the local clock shows its time on one of its days |
| `Scheduler.FiredWhenDue` | internal/api/scheduler.go:70-97 | whatever was executed was listed, enabled and due at some tick of its minute |
| `Scheduler.MalformedNeverDue` | internal/api/scheduler.go:99-107 | a time without exactly one colon never comes |
| `Scheduler.InListOrder` | internal/api/scheduler.go:84-96 | a tick executes what it executes in the order of its list |
| `Scheduler.TruncateIsMinute` | internal/api/scheduler.go:123-137 | truncated instants are equal exactly when the minutes are |
| `Scheduler.ClockFace` | internal/api/scheduler.go:71-72 | hour, minute and weekday determine the local minute within its week |
| `Scheduler.Ticker.Tick` | internal/api/scheduler.go:70-97 | the loop visits the schedules in order, marks and executes the due ones |
| `Scheduler.Ticker.MarkFired` | internal/api/scheduler.go:133-137 | remembers the minute of the last firing |
| `Scheduler.Ticker.AddHistory` | internal/api/scheduler.go:170-177 | the history is always the newest 50 of all entries recorded |
| `Scheduler.Ticker.GetHistory` | internal/api/scheduler.go:179-188 | those entries, most recent first |
| `Shell.JoinShellRoundTrip` | pkg/kubevirt/ssh.go:264-279 | POSIX word splitting of the joined command gives back every list of arguments |
| `Shell.JoinShell` | pkg/kubevirt/ssh.go:269-275 | the quoting loop builds that command |
| `Shell.UploadCommandFields` | pkg/kubevirt/ssh.go:252-253 | for every path the upload command is five words, the last being the path itself |
| `Shell.DownloadCommandFields` | pkg/kubevirt/ssh.go:220 | for every path the download command is cat and the path |
| `Sse.DecodeInTwo` | frontend/src/api/client.js:316-341 | decoding a text is decoding a first part and going on with the rest; once settled nothing more matters |
| `Sse.CutsDoNotMatter` | frontend/src/api/client.js:314-341 | however a text is cut, reading it chunk by chunk delivers and settles what decoding it whole does |
| `Sse.StreamClusterSse` | frontend/src/api/client.js:314-341 | the reader loop with its frame loop reads the chunks one by one |
| `Sse.ReadFrame` | frontend/src/api/client.js:326-339 | the loop over the lines of one frame |
| `Sse.StreamDeliversFramed` | frontend/src/api/client.js:314-341 | from framed events, however cut, exactly the events up to and including the first done or error are delivered; done resolves with that event, error rejects with it, neither leaves the stream open |
| `Sse.OutcomeIff` | frontend/src/api/client.js:330-341 | told by the outcome |
| `Sse.BlankLineIsFirst` | frontend/src/api/client.js:320-324 | a frame ends at the first two newlines in a row |
| `Sse.UnfinishedWaits` | frontend/src/api/client.js:316-324 | an unfinished frame delivers nothing yet |
| `Sse.BlanksDoNotMatter` | frontend/src/api/client.js:326-329 | blanks around a payload do not matter |
| `Sse.OtherLinesPassed` | frontend/src/api/client.js:326-339 | comments, other fields, empty data and data that is not JSON are passed over |
| `Sse.ChatCutsDoNotMatter` | frontend/src/stores/chatStore.js:197-214 | however a text is cut, reading it chunk by chunk gives the payloads of its complete lines |
| `Sse.StreamChat` | frontend/src/stores/chatStore.js:197-214 | the reader loop reads the chunks one by one |
| `Sse.OtherChatLinesPassed` | frontend/src/stores/chatStore.js:203-206 | the chat store, too, passes over lines that are not data |
| `Sse.ChatReadsFramed` | internal/api/handlers_chat.go:92-99 | from framed events, however cut, every payload, in order |
| `Sse.DecodersAgree` | internal/api/handlers_clusters.go:723-730 | both decoders see the same payloads of the same framed text, each cut in its own way |
| `Sse.StandardReadsFramed` | internal/api/handlers_clusters.go:723-730 | read by the rules of section 9.2.6 of the WHATWG HTML standard, the framed text carries the same payloads |
| `CloneName.NextCloneName` | internal/api/handlers_vms.go:338-353 | terminates with the smallest-numbered free name, after at most one step more than there are distinct names in use |
| `CloneName.CandidateNamed` | internal/api/handlers_vms.go:347-349 | a clone's name is its source's, `-clone` and a number that reads back |
| `CloneName.TakenPrefixIsShort` | internal/api/handlers_vms.go:347-352 | pigeonhole: n names in use cannot cover n + 1 candidates |
| `CloneName.NamesInUse` | internal/api/handlers_vms.go:340-346 | the map holds exactly the distinct names of machines and launches |
| `CloudInit.OutsideUntouched` | pkg/kubevirt/cloudinit_files.go:117-359 | an injector changes no top-level key outside its footprint |
| `CloudInit.InsideDecides` | pkg/kubevirt/cloudinit_files.go:117-359 | what it does, failure included, depends on its footprint only |
| `CloudInit.Commute` | pkg/kubevirt/cloudinit_files.go:117-359 | injectors with disjoint footprints commute, failures included |
| `CloudInit.ListsGrow` | pkg/kubevirt/cloudinit_files.go:117-359 | earlier entries of any top-level list stay in place exactly when the injector does not overwrite the key (host name keys, chpasswd, ssh_pwauth) |
| `CloudInit.PasswordEntriesStayIff` | pkg/kubevirt/cloudinit_files.go:273-348 | all earlier password entries stay exactly when they were not held as a list (or the new line repeats them), although appending is promised |
| `CloudInit.ListedInOneLine` | pkg/kubevirt/cloudinit_files.go:336-343 | for a line without a newline: exactly when everything listed is that very line |
| `CloudInit.PasswordListLost` | pkg/kubevirt/cloudinit_files.go:336-343 | an entry listed for another user is lost |
| `CloudInit.TextFollowsDoc` | pkg/kubevirt/cloudinit_files.go:117-162 | on text an injector does what it does on the parsed document |
| `CloudInit.InjectTwice` | pkg/kubevirt/cloudinit_files.go:108-359 | injecting the same thing twice gives the very text of injecting it once |
| `CloudInit.CreatedDocument` | internal/api/handlers_vms.go:142-207 | after the whole chain the document holds all that was asked for: both SSH keys, host name, user with its password line contained in the list, agent command |
| `CloudInitLaws.FinishedKeys` | internal/api/handlers_vms.go:142-163 | the key list is the one there was with the two trimmed keys at its end, each unless blank or there already |
| `CloudInitLaws.KeysAreHeld` | pkg/kubevirt/cloudinit_files.go:117-162 | so both are in it, after all earlier entries |
| `CloudInitLaws.FinishedHost` | pkg/kubevirt/cloudinit_files.go:243-266 | the host name keys are set to the trimmed name, or left alone if it is blank |
| `CloudInitLaws.FinishedUser` | pkg/kubevirt/cloudinit_files.go:277-359 | a user with name and password is added at the end of the list unless one of that name is there, as a sudo user who may log in with password and key; the chpasswd block keeps all but its list, and expire is false unless it was set |
| `CloudInitLaws.FinishedAgent` | pkg/kubevirt/cloudinit_files.go:173-237 | the distribution's install command is added at the end of runcmd, run by sh, unless some command mentions the agent |
| `CloudInitLaws.MentionsIff` | pkg/kubevirt/cloudinit_files.go:225-237 | a command mentions the agent exactly if one of its texts, at any depth, holds its name |
| `CloudInitLaws.FinishedOthers` | internal/api/handlers_vms.go:142-207 | no other key changes |
| `CloudInitLaws.RewrittenIff` | internal/api/handlers_vms.go:142-207 | on a document that parses the chain fails exactly if a list it would append to is something else than a list |
| `CloudInit.CreatedPasswordLine` | internal/api/handlers_vms.go:142-207 | after the whole chain the password line stands on a line of its own exactly when it holds no newline and did so in the incoming document or was not contained in its list |
| `CloudInit.CreatedPasswordEntries` | internal/api/handlers_vms.go:142-207 | the finished document has all password entries of the incoming one exactly when it did not hold them as a list (or the new line repeats them) |
| `CloudInit.PasswordLineAloneIff` | pkg/kubevirt/cloudinit_files.go:330-348 | the same of the one chpasswd block |
| `CloudInit.PasswordLineHidden` | pkg/kubevirt/cloudinit_files.go:338 | a longer password of the same user keeps the line out of the list |
| `CloudInit.InjectSSHAuthorizedKey` | pkg/kubevirt/cloudinit_files.go:117-162 | the key is added unless an entry equals it up to surrounding blanks; other types are errors |
| `CloudInit.InjectQEMUGuestAgent` | pkg/kubevirt/cloudinit_files.go:173-213 | the install command is added unless some entry, at any depth, mentions the agent |
| `CloudInit.InjectHostname` | pkg/kubevirt/cloudinit_files.go:243-266 | host name keys set; a blank name changes nothing |
| `CloudInit.InjectUserWithPassword` | pkg/kubevirt/cloudinit_files.go:277-359 | the user added unless present, its password line unless contained, expire only if unset |
| `CloudInit.RewriteCloudInit` | internal/api/handlers_vms.go:142-207 | the calls in order fail exactly when a user lacks a password or a step fails, and otherwise give what the chain gives |

## Left out

- AnsibleQueue.Runner: what startFunc and the handler do between their decision and start, other than that they may give up.
- AnsibleRun.Run: the subprocess, its pipes and its cancellation; JSON rendering of the run.
- PortForwards.Manager: ListForVM, logging, the ticker around sweep.
- EventLog.Log: a file that exists but cannot be read, webhook dispatch, and a file that changes between the read of the count and the scan of a filtered query.
- EventLog.Log.constructor: failures to write or open the file at start, which return an error and no log.
- EventLog.Log.RotateLocked: a failed write may leave any text in the file; nothing is claimed of the file from then on.
- Agent.RunAgentLoop: log lines, the audit event per executed write, the wording of descriptions, and the 5-minute timeout other than as the client being gone; a run is any finite list of passes of the loop.
- LlmTools.FilterToolsForMode: descriptions and JSON schemas of the tools.
- RateLimit.ApiRateLimiter: how the client address is found behind a proxy.
- Login.HandleLogin: cookies and bcrypt; the three clock readings and the token are parameters.
- Sessions.SessionStore: failures of the random source.
- Scheduler.Ticker: execution of a schedule (targets, machine calls, result word) and runNow, which fires without marking.
- Shell.JoinShell: NUL characters, which no command line can carry.
- Sse.StreamClusterSse: UTF-8 decoding of the bytes, HTTP status handling, exceptions thrown by onEvent, and payloads that are JSON but not objects.
- CloneName.NextCloneName: a name taken by someone else between the choice and the clone.
- CloudInit.CreatedDocument: promises the password line only as a substring of the list, because the code looks for no more; CreatedPasswordLine says when it stands on its own.
- CloudInit.RewriteCloudInit: reading the template file and writing the temporary file.
- Kubernetes calls, WebSockets, terminals, HTTP routing, configuration, the launch tracker, validators other than the machine name, the image catalogue and the Vue components.
