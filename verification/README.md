# 1router: a verified model

1router is a gateway in front of language-model providers. This project models
the state machines inside it that carry exact obligations, and proves those
obligations for all inputs, all runs and all interleavings. Source paths are
relative to the root of the 1router repository.

* **Responses translation** (`ChatWire`, `StreamSpec`, `StreamMachine`,
  `StreamClient`, `StreamGrammar`, `StreamTheorems`, `StreamBuffered`,
  `StreamMeaning`, `StreamReplay`, `Json`, `RequestTranslation`, `RequestMeaning`,
  `Namespaces`). The mutable `StreamState` class is proved equal, method by method,
  to a functional state machine. About that machine: every run is accepted by a strict client written
  down independently of it, and a streamed reply ends as the buffered translation
  of the assembled reply exactly when two conditions on the chunks hold. Requests
  are translated by the loop of the source; the messages it builds are the only
  canonical ones that say what the request says.
* **Failover** (`Runtime`, `RoundRobin`, `PoolSelection`, `PoolCandidates`,
  `Failover`, `FailoverRun`, `FailoverEffects`): the circuit breaker, candidate
  order, and the retry and failover loop. What upstream answers to a candidate is
  given as a script, times are natural numbers (nanoseconds). Other requests write to the shared entries before every turn
  and during it; what they write is part of the script.
* **Single-use refresh tokens** (`RefreshProtocol`, `RefreshHistory`,
  `RefreshCallers`, `RefreshSection`): a step relation over any number of tasks
  with an inductive invariant, and the locked section as an imperative method tied
  to the steps. The token exchange is the one of section 6 of RFC 6749. The history
  of upstream requests is part of the state. A task is detached from its caller or
  runs inline and is cancelled with it, as `src/providers/refresh_task.rs:44-47`
  would be.
* **Stream observers** (`UsageScanner`, `UsageReport`, `DatasetTee`): byte machines
  with overflow limits against whole-input specifications.
* **Login limiter** (`RateLimit`, `LoginRuns`) and **image failover**
  (`ImageStream`, `ImageFailover`, `ImageEffects`).
* **Stored state** (`Catalog`, `CatalogStore`, `CatalogOverlap`, `CatalogMeaning`,
  `Users`, `ConfigImport`, `Text`): the tables as maps, edited by the same checks in
  the same order as the source; checks and writes of different edits may overlap.

The functions that methods are proved equal to are in turn pinned from outside, in
the `Meaning`, `Effects`, `Report` and `Candidates` modules: by the fields, bytes and
positions of the input, with the source's numbers written out.

Where the code and its own comments differ, the model follows the code:

* `src/pools/select.rs:218-222` says the tail behind the rotated head stays in
  priority order. `rotate_left` yields the cyclic order; `TailInPriorityOrder`
  says exactly when the two coincide.
* `src/proxy/flow.rs:308`: `backoff_level + 1` is a `u8` sum. In a release
  build it wraps at level 255, and the next cooldown is two seconds
  (`NthCooldown`).
* `src/pools/select.rs:252-257`: a sticky limit is cast from `i64` to `u32`, so a
  multiple of 2^32 acts as 1 (`LimitHonoured`).
* `src/providers/queries.rs:295-304`: the guard is meant for pools that do not
  speak the new wire format, but compares stored values, so a pool that serves any
  format blocks the edit as well (`GuardRefusesServed`, `AnyPoolBlocksFlip`).
* `src/admin/mod.rs:70-73`: the import is called idempotent. It is, except for dumps
  with repeated provider ids whose names clash (`ImportIsIdempotent`).
* `src/providers/refresh_lock.rs:53-57` means to keep a spent token from being sent
  again. If the re-read itself fails, it is sent (`SendsAreRight`).
* `src/admin/auth/rate_limit.rs:55-60` wants failures past the threshold spaced.
  Wrong bearer secrets count without a reservation and can overtake an attempt in
  flight (`SpacedUnlessOvertaken`).

## Model

| member | source | states |
|---|---|---|
| StreamBuffered.StreamedEqualsBuffered | src/proxy/responses.rs:452-546 | For every chunk sequence: the terminal event's response equals the buffered translation of the assembled reply (ids aside) if and only if no `tool_calls` array has text on both sides and every call's first fragment has its name |
| StreamBuffered.ChunkingIsInvisible | src/proxy/responses.rs:452-546 | Two chunkings of one reply that meet those conditions end with the same status, model, usage and output |
| StreamBuffered.TextInOneRunMeans | src/proxy/responses.rs:466-491 | The text condition in terms of chunk positions, checkable without running the translator |
| StreamBuffered.TextThenToolsMeans | src/proxy/responses.rs:466-491 | When a tool-call array closes an open text item, in terms of chunk positions |
| StreamBuffered.FeedAllMatches | src/proxy/responses.rs:452-525 | The state after any chunks in closed form: gathered texts, calls by first index with joined arguments, last model and usage, length flag |
| StreamBuffered.StreamedIs | src/proxy/responses.rs:528-546 | The terminal response: all text items, then all calls, with the status the length flag gives |
| StreamBuffered.MessagesFirst | src/proxy/responses.rs:528-546 | In every terminal output the messages come before the calls |
| StreamMeaning.StreamedUsage | src/proxy/responses.rs:300-309 | For every chunk sequence: the terminal input, output and total counts are the prompt, completion and total counts of the last chunk that states a usage; absent ones are 0, an absent total is the sum in 64 bits; all are 0 when no chunk states one |
| StreamMeaning.StreamedHeader | src/proxy/responses.rs:452-546 | The terminal model is the last one stated, else the requested one; the reply is incomplete exactly when some chunk stopped for its length |
| StreamMeaning.StreamedCalls | src/proxy/responses.rs:489-546 | The terminal calls are those the fragments start, in that order (no index is index 0): each under the id and name of its first fragment, split again if flattened, with the arguments of all its fragments joined in order |
| StreamMeaning.StreamedText | src/proxy/responses.rs:466-546 | The terminal messages spell the chunks' texts, none lost, doubled or moved, none empty |
| StreamMeaning.StreamOpens | src/proxy/responses.rs:402-426 | Every stream opens with the same two events: the requested model, nothing used, nothing put out |
| StreamMeaning.BufferedHeader | src/proxy/responses.rs:300-353 | The buffered reply: counts, model and status from its own fields, likewise |
| StreamMeaning.BufferedOutput | src/proxy/responses.rs:312-334 | Its output: the text if any, then each call in order with its id, name and arguments, `{}` when absent |
| StreamTheorems.EventGrammar | src/proxy/responses.rs:402-546 | Every run: numbers 0,1,2,...; one terminal event, last; each added item done exactly once; each output body is the concatenation of the deltas naming its item; output is messages then calls, each in opening order, which is index order if and only if no text follows a tool call |
| StreamTheorems.RunIsAccepted | src/proxy/responses.rs:402-546 | Every run is accepted to its end by the strict client automaton |
| StreamClient.AcceptedIsFaithful | src/proxy/responses.rs:402-546 | What acceptance by that client means in terms of the events alone |
| StreamGrammar.FeedAllSim | src/proxy/responses.rs:452-525 | After any chunks the client shows exactly the open and closed items of the state machine |
| StreamGrammar.TextAfterCallMeans | src/proxy/responses.rs:466-519 | When text follows a tool-call fragment, in terms of chunk positions |
| StreamReplay.ReplayEqualsBuffered | src/proxy/responses.rs:648-668 | A JSON reply replayed as a one-chunk stream equals its buffered translation if and only if every call has its name and its arguments as strings |
| StreamMachine.StreamState.constructor | src/proxy/responses.rs:384-400 | A new translator has the initial state |
| StreamMachine.StreamState.StartEvents | src/proxy/responses.rs:418-426 | The two opening events are emitted once |
| StreamMachine.StreamState.CloseTextItem | src/proxy/responses.rs:428-440 | Closing the open text item is the machine's step |
| StreamMachine.StreamState.CloseCallItem | src/proxy/responses.rs:442-450 | Closing one call is the machine's step |
| StreamMachine.StreamState.FeedContent | src/proxy/responses.rs:466-487 | A text delta, opening the item when needed, is the machine's step |
| StreamMachine.StreamState.FeedOneFragment | src/proxy/responses.rs:492-518 | A tool-call fragment, opening the call when its index is new, is the machine's step |
| StreamMachine.StreamState.FeedToolCalls | src/proxy/responses.rs:489-520 | The loop over a chunk's fragments is the fold of the machine |
| StreamMachine.StreamState.FeedChunk | src/proxy/responses.rs:452-525 | One chunk takes the object to exactly the machine's next state and output |
| StreamMachine.StreamState.FinishStream | src/proxy/responses.rs:528-546 | Finishing closes what is open and emits the terminal event, once |
| StreamMachine.Translate | src/proxy/responses.rs:562-608 | Feeding all chunks and finishing emits exactly the events the theorems are about |
| RequestTranslation.RequestMessages | src/proxy/responses.rs:136-211 | Missing model and missing input are the only errors; otherwise the messages are canonical and say exactly what instructions and input say, in order |
| RequestTranslation.InputMessages | src/proxy/responses.rs:151-209 | The loop over input items conserves and orders everything said |
| RequestTranslation.PushItem | src/proxy/responses.rs:153-207 | One input item adds exactly its own messages, calls or results |
| RequestTranslation.PushToolCall | src/proxy/responses.rs:121-134 | A call joins a trailing assistant message or opens a new one |
| RequestTranslation.CanonicalIsUnique | src/proxy/responses.rs:121-211 | Two canonical message lists saying the same are equal, so the merge rule determines the result, dropped items or not |
| RequestTranslation.CallsAndResultsConserved | src/proxy/responses.rs:151-209 | The calls of all messages, flattened, are the `function_call` items in order, and likewise tool results |
| RequestMeaning.PairingKept | src/proxy/responses.rs:155-189 | Over a whole request: a call and the result that names it by a string `call_id` keep one id, each at its place among the calls or the results |
| RequestMeaning.CallMeans | src/proxy/responses.rs:155-175 | Which member gives a call its id and its arguments, and the defaults |
| RequestMeaning.ResultMeans | src/proxy/responses.rs:177-189 | A result keeps its `call_id`; a string output is passed on, of a list the texts in order, any other value is printed |
| RequestMeaning.MessageMeans | src/proxy/responses.rs:191-205 | By which role a message is said, developers as the system, nobody as the user; an assistant says all its text in order |
| RequestMeaning.ContentMeans | src/proxy/responses.rs:88-119 | Content stays a list of parts if and only if it has an image; else it becomes all its text in order |
| RequestMeaning.OthersDropped | src/proxy/responses.rs:206-207 | Items of any other type say nothing |
| RequestMeaning.ConversationOpens | src/proxy/responses.rs:143-150 | Instructions come first, as the system; a plain input is the user's |
| Namespaces.NamespacesOf | src/proxy/responses.rs:45-60 | The table built by the nested loops is the table of the declared pairs |
| Namespaces.NamespaceRoundTrip | src/proxy/responses.rs:38-71 | Un-flattening undoes flattening for every declared tool if and only if the flattened names are distinct |
| Namespaces.PlainToolsUntouched | src/proxy/responses.rs:62-71 | A call to any other name passes through unchanged |
| Namespaces.PairsAre | src/proxy/responses.rs:45-60 | A pair is declared if and only if some namespace group of the request has that function |
| Namespaces.EchoedCall | src/proxy/responses.rs:38-71 | A call that came back split and is sent again as history gets the chat name that the same table splits again |
| Namespaces.CollidingNames | src/proxy/responses.rs:38-60 | Two concrete tools that flatten to one name, the first being lost |
| FailoverRun.HandleProxy | src/proxy/flow.rs:233-851 | While other requests write to the shared entries before and during every turn: each verdict is the one the entry at its turn and the script give; a relayed answer comes from the first candidate that ends the request; a 503 exactly when none does; calls, log rows with their statuses, tried list, skips and entries are all accounted for; Retry-After is sound |
| FailoverRun.TryAll | src/proxy/flow.rs:233-827 | The loop: it ends at the first candidate that ends the request, or after all of them |
| FailoverEffects.SuccessHeals | src/proxy/flow.rs:324-329 | A success leaves the entry healthy at level 0, whatever it was |
| FailoverEffects.UnauthorizedMisconfigures | src/proxy/flow.rs:403-620 | A 401 that nothing cures, or a dead refresh token, leaves it misconfigured for 300 seconds at its level |
| FailoverEffects.NamedWaitIsKept | src/proxy/flow.rs:789-813 | A wait the upstream names, or the usage limit of a first 429, is the cooldown |
| FailoverEffects.FailuresEscalate | src/proxy/flow.rs:303-813 | A send error, a refresh that failed for now, a 5xx, 429 or 408 without a wait, or any failed transport retry cools min(300, 2^(level + 1)) seconds, two after level 255 |
| FailoverEffects.OthersCoolHalfAMinute | src/proxy/flow.rs:799-813 | Any other retryable answer cools 30 seconds |
| FailoverEffects.EntriesMoveOnlyFor | src/proxy/flow.rs:303-825 | An entry heals exactly on a success, becomes misconfigured exactly when unauthorized, and gains a level exactly on those failures; nothing else moves it |
| FailoverEffects.RelayLeavesHealthy | src/proxy/flow.rs:324-362 | After a request that relayed an upstream success, the entry of the candidate that served it is healthy, whatever happened before |
| FailoverEffects.AnswersAreRelayed | src/proxy/flow.rs:324-420 | Exactly when the caller gets an upstream success, an embedded error, or a rejection passed through, and with which status |
| FailoverEffects.StatusesAreLogged | src/proxy/flow.rs:303-825 | The status each log row shows |
| FailoverEffects.SkippedWhileCooling | src/proxy/flow.rs:241-252 | A candidate is skipped if and only if its cooldown ends after its turn |
| FailoverRun.Pass | src/proxy/flow.rs:233-827 | One turn of the loop keeps that accounting |
| FailoverRun.WhatEndsARequest | src/proxy/flow.rs:324-825 | Exactly which last answers end the request; at most two calls and one log row per candidate, a row exactly when a call was made |
| FailoverRun.OnlyContactedEntriesMove | src/proxy/flow.rs:303-402 | This request moves an entry's availability, status or level only if a candidate under its key was contacted and not merely rejected; otherwise the entry is what the other requests make of it |
| FailoverRun.UntouchedEntry | src/proxy/flow.rs:387-402 | Rejections, skips and unready candidates leave the entry to the other requests |
| FailoverRun.RetryAfter | src/proxy/flow.rs:829-848 | The header is set exactly when nothing was tried and something was skipped, and then it is sound for the candidates whose entries still stand |
| FailoverRun.ShortestIsSound | src/proxy/flow.rs:841-848 | Waiting the shortest recorded wait, rounded, frees the candidate it was recorded for, and no skipped one is free two seconds earlier, unless its entry changed since its turn |
| FailoverRun.NothingTriedStands | src/proxy/flow.rs:841-848 | With nothing tried and no other request writing, every entry stands as it was at its turn |
| FailoverRun.RetryAfterCovers | src/proxy/flow.rs:843-846 | The rounded seconds cover the wait and exceed it by less than two seconds |
| FailoverRun.ShortestWait | src/proxy/flow.rs:844 | The minimum of the recorded waits |
| Failover.Request.Attempt | src/proxy/flow.rs:233-300 | One candidate: skipped exactly while its entry cools at its turn, whatever others wrote before; else the verdict, calls, log rows and entry effect its script determines |
| Failover.Request.Take | src/proxy/flow.rs:252-825 | A candidate that is not cooling: its effect lands on the entry as other requests have left it by then |
| Failover.Request.FirstAnswer | src/proxy/flow.rs:303-825 | The first answer's class decides verdict, effect and log row |
| Failover.Request.Retry | src/proxy/flow.rs:431-787 | The second request after a refresh or a transport change: verdict, effect and log row |
| Failover.Request.AttributeError | src/proxy/flow.rs:888-897 | The failure text gained since the last check is noted on the entry of the candidate that caused it, once; routing never changes |
| Runtime.NthCooldown | src/core/runtime.rs:75-83 | After any run of transitions on any keys, the next escalating failure is the n-th of its streak and cools min(300, 2^n) seconds up to n = 255, two seconds from then on |
| Runtime.LevelIsStreak | src/core/runtime.rs:59-109 | After any run a level is the number of retryable failures since the key was last healed, reset or pruned, capped at 255 |
| Runtime.CooldownClosedForm | src/proxy/backoff.rs:38-43 | The capped doubling equals min(300, 2^level) |
| Runtime.CooldownTable | src/proxy/backoff.rs:38-43 | The whole table in seconds: 2, 4, 8, 16, 32, 64, 128, 256, then 300 |
| Runtime.RunsStayConsistent | src/core/runtime.rs:39-100 | Every run keeps: Healthy exactly when no cooldown is set, and Healthy implies level 0 |
| Runtime.PruningIsInvisible | src/core/runtime.rs:102-109 | After any run, pruning changes no key's availability from then on and no cooling entry |
| Runtime.PruneForgets | src/core/runtime.rs:102-109 | After any run, pruning forgets exactly the keys that are healthy or whose cooldown ended at least the retention ago |
| Runtime.KeysCollide | src/core/runtime.rs:188-190 | Two providers share a key for some models if and only if they are the same or one id extends the other past a separator |
| Runtime.PrefixMatches | src/core/runtime.rs:188-198 | A provider's prefix matches some key of another under exactly that condition |
| Runtime.RuntimeKeyInjective | src/core/runtime.rs:188-190 | So keys are injective when provider ids lack the separator |
| Runtime.SeparatorSplits | src/core/runtime.rs:188-198 | So a provider's prefix matches exactly its own keys when ids lack the separator |
| Runtime.SeparatorInIdCollides | src/core/runtime.rs:188-198 | Two concrete ids that nest, and the key they share |
| Runtime.OnlyOwnEntriesTouched | src/core/runtime.rs:118-145 | Reset and mark-misconfigured touch exactly the provider's entries |
| Runtime.RuntimeStates.PruneIdle | src/core/runtime.rs:102-109 | Keeps exactly the entries cooling or within retention; returns how many went |
| Runtime.RuntimeStates.ResetProviderToHealthy | src/core/runtime.rs:118-125 | The whole map after a provider reset |
| Runtime.RuntimeStates.MarkProviderMisconfigured | src/core/runtime.rs:137-145 | The whole map after a provider is marked |
| Runtime.WorstProviderState | src/core/runtime.rs:147-177 | For any iteration order: one of the provider's entries, and none of them is worse; misconfigured exactly when some entry is, healthy exactly when all are |
| RoundRobin.ClosedForm | src/pools/select.rs:227-248 | From a fresh cursor the m-th selection is headed by member (m / k) mod n |
| RoundRobin.Fairness | src/pools/select.rs:227-248 | Any n * k consecutive selections make each member head exactly k times |
| RoundRobin.Cursor.Rotate | src/pools/select.rs:227-248 | The rotation and the cursor's next state; the use counter stays below 2^32 |
| RoundRobin.Cursor.SelectOrder | src/pools/select.rs:94-99 | From any cursor, so under arbitrary changes of members and limits before: the stable priority order, rotated when there are two members or more, always a permutation of the members; the use counter keeps below 2^32 |
| RoundRobin.SortSorts | src/pools/select.rs:94-95 | The order is by priority |
| RoundRobin.SortPermutes | src/pools/select.rs:94-95 | Sorting loses and invents no member |
| RoundRobin.SortIsStable | src/pools/select.rs:94-95 | Members of equal priority keep their order |
| RoundRobin.RotatedAt | src/pools/select.rs:236-237 | Position i of the rotated order is member (head + i) mod n |
| RoundRobin.TailInPriorityOrder | src/pools/select.rs:213-237 | The tail is in priority order if and only if the head is the first or the last member |
| RoundRobin.LimitHonoured | src/pools/select.rs:250-257 | A limit is honoured if and only if it is positive and fits 32 bits |
| RoundRobin.OtherLimits | src/pools/select.rs:250-257 | No limit and limits below 1 act as 1; one too large as what 32 bits leave of it |
| PoolSelection.Rotation.Select | src/pools/select.rs:81-211 | Unknown and wrong-modality names are refused without moving a cursor; a served pool yields its usable members in rotated order and moves only its own cursor; otherwise a direct address |
| PoolSelection.ImageRequestsGetImageModels | src/pools/select.rs:141-211 | An image request only ever gets Codex providers under image models, whatever the tables hold |
| PoolSelection.CursorsAreIndependent | src/pools/select.rs:87-99 | Over any run of requests under changing configurations, a pool that keeps its members has the cursor its own served requests give |
| PoolSelection.OrderIsRotation | src/pools/select.rs:87-99 | After any run, whatever was reconfigured: a pool's candidates are a rotation of the stable priority order of its usable members, none missing and none twice |
| PoolSelection.CountersNeverOverflow | src/pools/select.rs:227-248 | Over any run no use counter leaves 32 bits |
| PoolSelection.InterleavedHead | src/pools/select.rs:87-99 | After any such run in which a pool served m requests its next head is member (m / k) mod n |
| PoolSelection.AddressRoundTrip | src/pools/select.rs:264-270 | `<provider>/<model>` splits back into provider and model |
| PoolSelection.PlainNamesAreNoAddresses | src/pools/select.rs:75-79 | A name splits as an address if and only if it holds a `/` |
| PoolSelection.KeepEligible | src/pools/select.rs:160-171 | The image member filter |
| PoolSelection.Resolve | src/pools/select.rs:101-116 | Candidates in order, members of missing providers dropped |
| PoolCandidates.SelectedAre | src/pools/select.rs:81-116 | What the caller gets from a served pool: the members with a provider, in the pool's order, each as its provider under its override or else the provider's own model |
| PoolCandidates.ServedFirst | src/pools/select.rs:87-116 | The first candidate after m served requests is member (m / k) mod n of the priority order, whatever came between |
| PoolCandidates.ServedByPriority | src/pools/select.rs:94-116 | In a pool by priority the candidates never come by falling priority |
| PoolCandidates.UsableAre | src/pools/select.rs:138-171 | An image request sees exactly the Codex members under an image model, in list order |
| PoolCandidates.DirectAddress | src/pools/select.rs:264-290 | `provider/model` gets that provider under that model if both are acceptable, and nothing otherwise |
| RefreshProtocol.RefreshSafety | src/providers/refresh_lock.rs:9-95 | Over every interleaving, failed re-reads and dropped callers included: one task at most is in the locked section, none writes more than four times, and whenever the lock is free the row holds the live token exactly if no rotated token was given up, after four failed writes or with the caller of an inline refresh |
| RefreshProtocol.StepKeepsInv | src/providers/refresh_lock.rs:9-95 | Every step of every task keeps the invariant |
| RefreshProtocol.LostMeansReauth | src/providers/refresh_lock.rs:87-92 | Over every run: once rotated tokens were given up no refresh is ever accepted again |
| RefreshProtocol.LostIsPermanent | src/providers/refresh_lock.rs:87-92 | Giving up rotated tokens is permanent |
| RefreshHistory.SendsAreRight | src/providers/refresh_lock.rs:47-96 | Over every run with nothing given up: every request carried the token upstream accepted, and no replaced token was sent again, if and only if each task whose re-read failed while its token was out of date was cancelled or still waits before upstream answered it |
| RefreshHistory.UncancelledSendsAreRight | src/providers/refresh_lock.rs:53-67 | So with no task cancelled and the lock free: if and only if no out-of-date re-read failed |
| RefreshHistory.StaleReadIsPossible | src/providers/refresh_lock.rs:58-67 | A concrete run in which such a re-read fails and a replaced token is sent |
| RefreshCallers.DropLosesExactly | src/providers/refresh_lock.rs:22-45 | In every reachable state with nothing given up: dropping a caller strands the row if and only if its refresh is inline and holds rotated tokens not yet written |
| RefreshCallers.WhatStrands | src/providers/refresh_lock.rs:21-96 | A step strands the row if and only if it is such a drop, or the failed write after three failed ones of the same task |
| RefreshCallers.AttemptsAreWrites | src/providers/refresh_lock.rs:68-95 | A task that still has to write counts exactly its own failed writes |
| RefreshCallers.DetachedRunOn | src/providers/refresh_lock.rs:30-45 | A detached refresh is never cancelled |
| RefreshCallers.DroppedCallersChangeNothing | src/providers/refresh_lock.rs:30-45 | A run in which callers of detached refreshes are dropped anywhere reaches the state of the same run without those drops, inline ones still cancelled |
| RefreshSection.RefreshAndPersist | src/providers/refresh_lock.rs:47-96 | The locked section from any reachable state, tokens given up or not: a failed or empty re-read goes on to send; else reuse of a fresh row, failure without a write, or the new tokens stored; each call is a stretch of protocol steps |
| RefreshSection.Persist | src/providers/refresh_lock.rs:68-95 | The write loop stores the tokens if one of four writes succeeds and else leaves the row alone |
| UsageScanner.ScanChunks | src/telemetry/usage.rs:89-144 | For every cutting into chunks the scanner reports the whole-input usage |
| UsageReport.ReportIs | src/telemetry/usage.rs:27-144 | Each field of the report is the largest that any line of at most 2^20 bytes gives it, never below 0; without such a line, what the whole body of at most 2^22 bytes gives |
| UsageReport.AllLinesAre | src/telemetry/usage.rs:99-138 | Those lines are the stretches of the body between newlines, the last one with or without its own |
| UsageReport.OrderIsInvisible | src/telemetry/usage.rs:34-38 | Neither the order of the lines nor how often one comes changes the report |
| UsageScanner.Tap | src/telemetry/usage.rs:151-172 | Any number of polls, then a drop: items pass unchanged and the callback fires once with the whole-input usage of what arrived |
| UsageScanner.Guard.Drop | src/telemetry/usage.rs:151-159 | Takes the callback: it fires now, or had been taken already |
| UsageScanner.Scanner.Feed | src/telemetry/usage.rs:90-117 | After any bytes, line, body and overflow state are those of all bytes so far |
| UsageScanner.Scanner.Finish | src/telemetry/usage.rs:132-143 | The unterminated last line and the whole-body fallback complete the whole-input usage |
| UsageScanner.LinesJoin | src/telemetry/usage.rs:99-116 | The specification's lines and tail make up the input again |
| UsageScanner.LinesAreLines | src/telemetry/usage.rs:99-116 | Each of those lines ends at its only newline |
| DatasetTee.Tee | src/proxy/dataset_tee.rs:55-88 | Any number of polls, then a drop: the client sees upstream unchanged up to the first error or the end; one report, with the forwarded bytes if they are at most 2^26, complete exactly when the clean end was polled and they fit |
| DatasetTee.FireOnDrop.FireNow | src/proxy/dataset_tee.rs:22-31 | Reports once; later calls report nothing |
| DatasetTee.FireOnDrop.Copy | src/proxy/dataset_tee.rs:64-73 | The copy is what was forwarded, or nothing once it overflowed |
| DatasetTee.CopiedSplits | src/proxy/dataset_tee.rs:64-73 | The copy is the chunks, one after the other |
| RateLimit.SharedBucket | src/admin/auth/rate_limit.rs:22-33 | Two addresses share a bucket exactly when they are the same V4 address, written either way, or lie in one V6 /64 |
| RateLimit.CooldownIs | src/admin/auth/rate_limit.rs:12-17 | The cooldown in closed form: min(300, 2^max(k, 1)) seconds, in nanoseconds |
| RateLimit.LockoutTable | src/admin/auth/rate_limit.rs:12-17 | By the number of the failure: 2 seconds from the fifth and the sixth on, then 4, 8, 16, 32, 64, 128, 256 and 300 |
| RateLimit.FailureLocks | src/admin/auth/rate_limit.rs:84-95 | The fifth failure and each later one locks its bucket for exactly that long; an earlier one locks nothing |
| RateLimit.SuccessReopens | src/admin/auth/rate_limit.rs:97-102 | After a success the next attempt is admitted exactly when fewer than five are in flight |
| RateLimit.PruneForgetsIdle | src/admin/auth/rate_limit.rs:104-114 | Pruning forgets exactly the buckets that are not locked, hold no attempt and saw no failure for 15 minutes |
| RateLimit.LoginAttempts.TryBeginAttempt | src/admin/auth/rate_limit.rs:61-82 | The gate and the reservation in one step |
| RateLimit.LoginAttempts.DropGuard | src/admin/auth/rate_limit.rs:47-53 | Dropping a guard frees its slot |
| RateLimit.LoginAttempts.RecordFailure | src/admin/auth/rate_limit.rs:84-95 | Count, time and lockout after a failure |
| RateLimit.LoginAttempts.RecordSuccess | src/admin/auth/rate_limit.rs:97-102 | A success clears count and lockout |
| RateLimit.LoginAttempts.PruneStale | src/admin/auth/rate_limit.rs:106-114 | Exactly the idle buckets go, and their number is returned |
| RateLimit.LoginAttempts.IsLockedOut | src/admin/auth/rate_limit.rs:35-39 | The lockout test of the bearer path |
| LoginRuns.InFlightIsLiveGuards | src/admin/auth/rate_limit.rs:47-114 | Over every interleaving, bearer failures included: `in_flight` is the number of live guards of the bucket, at most five |
| LoginRuns.RunsAreThrottled | src/admin/auth/rate_limit.rs:55-82 | In a bucket without bearer failures, whatever happens in others: failures plus undecided attempts stay within five; from then on at most one attempt is undecided and it began after the lockout |
| LoginRuns.CountersAreHistory | src/admin/auth/rate_limit.rs:84-114 | A bucket's counters are those of the list of failures since it was last cleared or pruned |
| LoginRuns.FailuresAreSpaced | src/admin/auth/rate_limit.rs:13-95 | In a bucket without bearer failures, the sixth failure comes at least 2 seconds after the fifth, and failure i at least 2, 4, 8, ..., 300 seconds after failure i - 1, in every interleaving, successes and prunes included, with no global clock assumed |
| LoginRuns.SpacedUnlessOvertaken | src/admin/auth/rate_limit.rs:55-95 | In every legal run, bearer failures included: a guarded failure past the fifth is spaced like that unless its guard was already out when the failure before it was recorded |
| LoginRuns.RunsWaitOrAreOvertaken | src/admin/auth/rate_limit.rs:55-95 | The invariant behind it: past the threshold each undecided attempt was overtaken by the last failure or began after the lockout |
| LoginRuns.SpacedExactlyWhenWaited | src/admin/auth/rate_limit.rs:61-95 | Every failure an undecided attempt may still report is spaced if and only if the attempt began after the lockout |
| LoginRuns.AdmittedExactly | src/admin/auth/rate_limit.rs:61-82 | After every legal run an attempt is admitted if and only if the lockout is over and there is room: nobody in flight from the fifth failure on, else failures and live guards below five |
| LoginRuns.WaitersAreAdmitted | src/admin/auth/rate_limit.rs:12-82 | Whoever waits five minutes with no attempt of its bucket in flight is let in again, whatever came before |
| LoginRuns.BareFailuresBreakSpacing | src/auth/middleware.rs:133-147 | A run in which wrong bearer secrets use up the threshold and a guarded attempt then fails unspaced |
| ImageStream.ParseStream | src/media/codex_images.rs:252-343 | The loop computes the whole-stream outcome |
| ImageStream.OutcomeMeans | src/media/codex_images.rs:326-343 | An image anywhere wins, the first one; then the first failure; then truncation; then blank or spoken completion |
| ImageStream.KindMeans | src/media/codex_images.rs:235-250 | Which words in an error code make it a usage limit, and which a rejection of the prompt |
| ImageStream.TextSplits | src/media/codex_images.rs:266-321 | The words said are those of the messages, in stream order |
| ImageStream.ImageMeans | src/media/codex_images.rs:266-335 | The picture is the first one generated with its own details, the words beside it if any, and the usage of the last completion |
| ImageStream.FailureMeans | src/media/codex_images.rs:266-335 | A failure is told by the first event that failed: its code, else its type, and the kind that code means |
| ImageStream.FirstMeans | src/media/codex_images.rs:266-321 | "First" is the first event in stream order |
| ImageFailover.Generate | src/media/images.rs:475-674 | While other requests write to the shared entries and the host index: every call but the last got a reply the source treats as not generated; no member after the last verdict is called; each member tried has exactly one log row, also when the client leaves at any await; one unit exactly on a picture; only tried members' entries are moved; each skip is recorded once; a 503 only when all moved on |
| ImageFailover.RetryAfter | src/media/images.rs:667-674 | The 503's header: set exactly when nothing was tried and something skipped, for the shortest recorded wait |
| ImageFailover.Turn | src/media/images.rs:514-655 | One turn of the member loop keeps that |
| ImageFailover.PassedOverMeansIdle | src/media/images.rs:563-655 | A member is passed over only after a reply the source treats as not generated, and such a reply ends the request only as a relayed 400, 413 or 422 |
| ImageEffects.RepliesMoveEntries | src/media/images.rs:514-655 | What the deciding reply does to the entry it meets: a picture heals it; an unfit account is set aside 300 seconds; a named wait is kept; overload and a refresh that failed for now escalate; what was turned down moves nothing; any other status costs 30 seconds |
| ImageEffects.AnswersToClient | src/media/images.rs:563-655 | What the client gets for each reply, and exactly which replies are tried elsewhere |
| ImageEffects.StatusesAreLogged | src/media/images.rs:563-655 | The status each log row shows |
| ImageEffects.HostMoves | src/media/images.rs:386-418 | The remembered host model changes exactly to a later one that generated after those before it were not supported |
| ImageFailover.ImageRequest.Attempt | src/media/images.rs:514-561 | One member: skipped exactly while cooling, else judged by its final reply, one log row, the entry effect of the judgement |
| ImageFailover.ImageRequest.FinalReply | src/media/images.rs:534-561 | At most one token refresh, then the reply that decides; a failed refresh decides by itself |
| ImageFailover.ImageRequest.AttemptHosts | src/media/images.rs:376-420 | The first host model from the remembered one on that is not unsupported answers; it is remembered exactly if it was another one and generated |
| ImageFailover.ImageRequest.Act | src/media/images.rs:563-654 | Answer, log row and entry effect of a reply |
| ImageFailover.ImageRequest.ActOnStream | src/media/images.rs:612-653 | Answer, log row and entry effect of a generation stream |
| ImageFailover.AttemptLog.Finish | src/media/images.rs:339-348 | The explicit log row |
| ImageFailover.AttemptLog.Drop | src/media/images.rs:351-358 | A row on drop only if none was written |
| ImageFailover.Serving | src/media/images.rs:386-418 | The first supported host model at or after a position |
| Catalog.EffortsStaySupported | src/providers/queries.rs:21-67 | Over every run of admin edits: each stored provider default and member override is carried by its effective model, foreign keys resolve, provider names are unique, image pools hold only Codex members under image models |
| Catalog.SoundnessStays | src/providers/queries.rs:210-358 | The same from any sound tables on |
| CatalogOverlap.LateWriteKeepsEfforts | src/providers/queries.rs:246-341 | A provider edit checked first and written after any other edits keeps every effort supported if and only if its row carries the efforts of the members stored in between, and its own, which can only fail after a deletion in between |
| CatalogOverlap.LateMemberKeepsEfforts | src/pools/queries.rs:99-169 | A member checked first and written after any other edits keeps every effort supported if and only if the provider's row at the write carries its effort, as it does when that provider was not edited |
| CatalogOverlap.UntouchedMember | src/pools/queries.rs:99-211 | A member present after a run that did not store it is as it was, its provider never deleted |
| CatalogOverlap.OverlappingEditsCanStrand | src/providers/queries.rs:313-332 | The condition can fail: a member stored between check and write whose effort the new model does not carry |
| Catalog.GuardRefusesServed | src/providers/queries.rs:295-310 | When every pool of a provider serves the new wire format, the guard refuses the edit if and only if one of them serves any format |
| Catalog.AnyPoolBlocksFlip | src/providers/queries.rs:279-310 | A concrete such edit that is refused |
| Catalog.StepKeepsEfforts | src/pools/queries.rs:99-169 | No single edit leaves an unsupported effort |
| Catalog.StepKeepsReferential | src/providers/queries.rs:210-358 | No single edit breaks a foreign key or name uniqueness; deletes cascade |
| Catalog.StepKeepsImagePools | src/pools/queries.rs:105-126 | No single edit puts a misfit into an image pool |
| CatalogMeaning.CapabilityMeans | src/core/reasoning.rs:89-123 | Which provider kinds, formats and model names carry an effort, and of which sort |
| CatalogMeaning.ImageModelMeans | src/pools/select.rs:130-136 | Image models are `gpt-image-` and something, or something and `-image`, short and without blanks |
| CatalogMeaning.UpdateCheckIsExact | src/providers/queries.rs:311-316 | A well-formed provider edit is accepted if and only if every effort is still supported after it |
| CatalogMeaning.InsertCheckIsExact | src/providers/queries.rs:210-244 | A new provider with a free id and name, likewise |
| CatalogMeaning.MemberCheckIsExact | src/pools/queries.rs:99-145 | A member whose keys resolve is accepted if and only if every effort is supported and every image pool fit after it |
| CatalogMeaning.PatchMeans | src/providers/queries.rs:252-310 | A patch changes what it names and nothing else, never kind or creation time, nor endpoint or key of a Codex provider |
| CatalogMeaning.DeletionsTake | src/pools/queries.rs:66-211 | A deletion takes exactly what it names and the members that hang on it |
| CatalogStore.Store.InsertProvider | src/providers/queries.rs:210-244 | Refused exactly for an unsupported effort or a taken id or name; the table after it |
| CatalogStore.Store.UpdateProvider | src/providers/queries.rs:246-341 | Each refusal and the edited row, checked as a resulting row and against the members |
| CatalogStore.Store.CheckUpdate | src/providers/queries.rs:246-316 | What is looked at before the write: every refusal but the name conflict |
| CatalogStore.Store.WriteProvider | src/providers/queries.rs:318-340 | The write alone: all columns but kind and creation time, or a name conflict |
| CatalogStore.Store.ApplyPatch | src/providers/queries.rs:252-278 | The patched row, or a refusal of a malformed patch |
| CatalogStore.Store.CheckMemberReasoningOverrides | src/providers/queries.rs:43-67 | The loop accepts exactly when every override survives the edit |
| CatalogStore.Store.DeleteProvider | src/providers/queries.rs:343-354 | The tables after a cascading delete |
| CatalogStore.Store.InsertPool | src/pools/queries.rs:20-43 | A taken id is refused; the table after it |
| CatalogStore.Store.UpdatePoolStrategy | src/pools/queries.rs:45-64 | Only strategy and sticky limit change |
| CatalogStore.Store.DeletePool | src/pools/queries.rs:66-78 | The tables after a cascading delete |
| CatalogStore.Store.UpsertMember | src/pools/queries.rs:99-169 | Each refusal, and the row stored under its full identity |
| CatalogStore.Store.CheckMember | src/pools/queries.rs:99-145 | What is looked at before the write: every refusal but a missing provider of a member without an effort |
| CatalogStore.Store.WriteMember | src/pools/queries.rs:146-168 | The write alone, refused exactly when a foreign key does not resolve |
| CatalogStore.Store.DeleteMember | src/pools/queries.rs:178-211 | One identity, or all members of a provider in a pool; not found if none |
| Users.RevokedStaysRevoked | src/users/queries.rs:156-190 | Over every run of creations, revocations, rotations, imports and uses a revoked user stays revoked with its date and no key authenticates as it |
| Users.RotatedOutStaysOut | src/users/queries.rs:168-190 | Given fresh keys, a replaced key never authenticates as that user again, whatever is imported |
| Users.ImportKeeps | src/admin/mod.rs:146-169 | An import keeps every existing user's key, creation date and revocation |
| Users.HashesStayUnique | src/users/queries.rs:110-145 | Key hashes stay unique over every run |
| Users.OneCallerPerKey | src/users/queries.rs:192-201 | A key finds at most one user |
| Users.StepKeeps | src/users/queries.rs:110-220 | Only a rotation to its own new hash replaces a key; users and their dates persist |
| Users.CreatedKeyWorks | src/users/queries.rs:110-145 | A new user can use its key at once; its name is not empty, at most ten characters of the key are kept |
| Users.RotatedKeyWorks | src/users/queries.rs:168-190 | The new key takes the place of the old one, which is then nobody's |
| Users.RevokedKeyFails | src/users/queries.rs:156-163 | No key works for a revoked user; the date is that of the first call |
| Users.UseDateIsCoarse | src/users/queries.rs:203-217 | The use date is at most a minute behind the last use and written at most once a minute |
| Users.UserStore.CreateUser | src/users/queries.rs:110-145 | Each refusal, and the row stored otherwise |
| Users.UserStore.RevokeUser | src/users/queries.rs:156-163 | Idempotent revocation; unknown ids are not found |
| Users.UserStore.RotateUserKey | src/users/queries.rs:168-190 | Unknown, revoked and taken-hash refusals; otherwise the new key in place |
| Users.UserStore.Authenticate | src/users/queries.rs:192-220 | A user comes back exactly if one has this key and is not revoked |
| Users.UserStore.TouchLastUsed | src/users/queries.rs:203-217 | The use date moves at most once a minute |
| ConfigImport.ImportConfig | src/admin/mod.rs:79-173 | All or nothing: either every row of the four tables was accepted and is merged, or nothing changed |
| ConfigImport.ImportIsIdempotent | src/admin/mod.rs:70-173 | An accepted dump imported again, repeated ids included, leaves what the first import left if and only if no provider row takes a name that a provider first coming later ends up with; otherwise the second import is refused |
| ConfigImport.ProvidersTwice | src/admin/mod.rs:82-106 | That condition for the provider table, from any table on |
| ConfigImport.DistinctIdsImportAgain | src/admin/mod.rs:70-173 | So every accepted dump without repeated provider ids imports again |
| ConfigImport.RepeatedIdsCanClash | src/admin/mod.rs:82-106 | A dump of three provider rows that the second import refuses |
| ConfigImport.LastRowWins | src/admin/mod.rs:82-106 | A provider's last row in the dump is what it is afterwards, but for the creation time of one that was there; others are left alone |
| ConfigImport.UsersAreUpserts | src/admin/mod.rs:152-169 | The users part is the same import that the credential runs are about |
| ConfigImport.ImportProviders | src/admin/mod.rs:82-106 | The provider loop is the fold of its merge, stopping at a name conflict |
| ConfigImport.ImportPools | src/admin/mod.rs:107-122 | The pool loop is the fold of its merge |
| ConfigImport.ImportMembers | src/admin/mod.rs:123-144 | The member loop is the fold of its merge, stopping at an unresolved foreign key |
| ConfigImport.ImportUsers | src/admin/mod.rs:146-169 | The user loop is the fold of its merge, stopping at a taken hash |

## Left out

- HTTP, TLS, SQL text, JSON parsing and printing, hashing and base64: library code. SHA-256 is a function parameter, line and body readers of the usage scanner are parameters.
- Adapter bodies and SSE framing: their results (built or not, answer class, transformed reply, refreshed tokens) are given by scripts.
- FailoverRun.HandleProxy: what other requests write is given by the scripts, not produced by running them; Retry-After is about entries not changed meanwhile, as the header is.
- FailoverEffects.FailuresEscalate: the level is read and the failure recorded in one step; for a retryable status the source does so under two acquisitions of the entry's lock.
- Failover.Request.Attempt: log latencies, dataset capture, cache-header logging and the debug headers are not modelled.
- PoolSelection.Rotation.Select: the non-admin allow-list for direct addresses and the per-member logging and effort overrides carried along are not modelled.
- RequestTranslation.RequestMessages: request fields other than `model`, `instructions` and `input` are not translated here; of `tools` only the namespace table is.
- StreamMachine.Translate: generated ids are a counter, creation timestamps and the transport's chunk framing are not modelled; event numbers and indexes are unbounded.
- RefreshProtocol.RefreshSafety: tokens stored by a new admin login bypass the lock and are no step of the protocol; a crash of the process is none either.
- UsageScanner.ScanChunks: totals are unbounded integers; the cost report is floating point and left out.
- ImageFailover.Generate: the permit, error texts pinned on entries and the 503's message are not modelled; the members come from the selection of `PoolSelection`.
- ImageStream.ParseStream: starts from typed events; the JSON of an event is parsed elsewhere.
- LoginRuns.FailuresAreSpaced: for fewer than 2^32 failures, where the `u32` count does not wrap.
- Catalog.EffortsStaySupported: every edit is one step here; edits whose check and write lie apart are the subject of `CatalogOverlap`, for one such edit at a time. `import_config` bypasses the checks on purpose and is no operation of these runs; `normalize_new`, run before an insert, is not modelled.
- Users.RotatedOutStaysOut: freshness is stated on hashes (a rotation's hash was never in the table), which fresh keys and an injective hash give.
- Reading efforts from request bodies and injecting them into upstream bodies: single-branch field copies.
- Frontend, onboarding, routers, Cloudflare Access, CSRF and session handling: wiring and foreign cryptography.
