# Analects: a verified model of the agent server's core

This project models the parts of the Analects server (a Confucius-based coding agent behind an
OpenAI-compatible endpoint) whose correctness is hardest to see from the code, and proves what each of them is
for. LLM replies, tool results, clocks, random jitter, extension hooks, text patterns and file-system outcomes are
arbitrary inputs: every result holds for all of them.

`dafny verify dfyconfig.toml` verifies the whole project.

## What is modelled

| files | subject |
|---|---|
| `AgentModel`, `AgentRuns`, `AgentTheorems`, `DualModelOrchestrator`, `ToolGroups` | the dual-model agent loop: a state machine over values, invariants of its runs, results about whole runs, the imperative class proved to take exactly those steps, and the limit a route starts with |
| `AgentHistory`, `AgentRecall`, `AgentConservation` | the loop told a second time, by its history alone and without counters or flags; the proof that both accounts agree; and that no call of a reply and no message is lost |
| `PoolModel`, `PoolTheorems`, `PoolHistory`, `SessionPool` | the session pool: atomic steps with a program counter for each request, safety and refinement results, what its times and counts mean over a run, and the class that performs the steps |
| `Memory`, `MemoryTree` | messages, memory managers, and the tree of nested and concurrent child contexts |
| `SchemaRefs`, `SchemaMeaning`, `SchemaTheorems`, `SchemaCells`, `SchemaStore` | `$ref` expansion: as a function on documents, the values a schema accepts, preservation of that meaning, and the expander as it runs on shared dictionaries it overwrites |
| `Braces`, `JsonExtraction`, `BlockStripping` | matched braces, the JSON scanner and the router's block stripper |
| `IoAdapter`, `Streaming` | the request's I/O object, and the interleaving of agent and event stream |
| `ToolQueue` | processing a queue of tool uses |
| `LlmParams` | parameter objects that share a dictionary, on the heap |
| `Common` | options, and small facts about sequences |
| `Tags`, `Retry` | escaping and fixpoint unescaping; retries with geometric backoff |

## What the proofs turned up

* A skipped nudge does not "fall through to completion" as the comment at
  confucius/server/dual_model_orchestrator.py:1039 says: the branch ends, and the loop calls the LLM again with an
  unchanged memory (`AgentTheorems.SkippedNudgeCallsAgain`).
* Apart from the error breaker's prompts a run injects at most 15 control prompts; research checkpoints and the
  final synthesis exclude one another (`AgentTheorems.PromptsAreBoundedAndErased`).
* A run is cut off at its limit only with an error pending or with 200 iterations spent
  (`AgentTheorems.LimitStops`). The error breaker itself stops nothing.
* Mutual exclusion needs that only unused sessions are removed, and the pool does not ensure it. In runs that keep to
  it, at most one request holds a session (`PoolTheorems.MutualExclusion`). Conversely, after any step from a safe
  state that evicts or expires a session some request waits for, holds or releases, full pool or not, a few more steps
  give two requests the same session (`PoolTheorems.UnguardedBreaks`, `PoolTheorems.FirstUnguardedStepBreaks`), and a
  later release can unlock another request's entry (`PoolTheorems.ReleaseUnlocksAnothersEntry`).
* A parent context that ends before its child loses the child's messages. Whatever the order of exits, a retained
  message reaches the session exactly when every context on its way ended before its parent did
  (`MemoryTree.ReachesSessionExactly`; the shortest run, `MemoryTree.EarlyExitLoses`). Child contexts without a
  runnable are not recognised as children by the path test (`MemoryTree.ChildIsRecognisedExactly`).
* The event stream's exit for a failed task is taken exactly for a task that ended without signalling. After the
  signal the sentinel always comes first, so that a failure inside the agent that printed nothing is not reported to
  the client (`Streaming.FailureExitExactly`).
* The schema expander looks inside literals: `const` keeps its meaning exactly when the literal holds no key `$ref`
  (`SchemaTheorems.ConstKeptExactlyWhenRefFree`).
* Stripping never lengthens a text from threshold 21 on; the placeholder has 22 characters
  (`BlockStripping.NeverLongerFrom21`).
* When the list of tools becomes empty, the tools offered last stay in the shared dictionary and are offered again
  (`LlmParams.CurrentToolsExactly`).
* Escaping and fixpoint unescaping give a text back exactly when it holds no character reference of its own
  (`Tags.RoundTripExactlyWhenNoReference`).

## Assumptions

* A context overflow is raised by the LLM call itself, after the model was chosen, and no other exception's text
  mentions a context length. The initial iteration limit is a finite number.
* The loop's text inputs stand for what the code looks at: the stripped length, hashes of the text and of its first
  500 characters, and whether code, a described tool or an intention was found in it.
* Loop memory is in order of arrival: each message takes its sequence number when it is created, just before it is
  added. The orchestrator's private fields are grouped in records by purpose.
* A pool step is atomic where the code holds the pool lock or does not await. Saving and loading may fail; which
  attempts succeed is an input. `model_copy` keeps a message's sequence number.
* The expander's root is a finite document whose references resolve through dictionaries and are acyclic (they can be
  ranked); under `anyOf`, `allOf` and `oneOf` there are lists. Where a property's name is one of these keywords, the
  code would take it for the keyword; such documents are outside `Below`. Meaning is compared for proper schemas: a
  dictionary or boolean wherever a schema belongs, no property named `$ref`, and no key `$ref` inside a literal (the
  exact condition for `const` is proved).
* The agent's task can end without signalling at any time before the signal, by an exception or by cancellation:
  confucius/server/app.py:1099-1117 holds code outside the `try` whose `finally` signals.
* Tool extensions keep their tool names while a queue is processed, and their hooks do not raise.
* `html.unescape` is restricted to the references amp, lt and gt (section 13.5 of the HTML standard).

## Model

| member | source | states |
|---|---|---|
| `AgentTheorems.EveryRunEnds` | confucius/server/dual_model_orchestrator.py:725-759 | every run ends, with interruptions, overflow retries and a growing limit: iterations never pass the limit, the limit never passes the cap, at most cap + 1 LLM calls, at most 4 (cap + 1) steps |
| `AgentRecall.LoopFollowsHistory` | confucius/server/dual_model_orchestrator.py:692-1358 | in every run the loop does what an account without counters and flags says: which model is called, what is shown, which tools run, which prompt is sent and which tools are enabled follow from the earlier calls, replies, batches, texts and prompts; the private fields are readings of that history |
| `AgentConservation.CallsAreRun` | confucius/orchestrator/anthropic.py:211-230 | over every run, interruptions included, the tools of all batches followed by those in the queue are the calls of the replies taken in, each once and in order |
| `AgentConservation.ReplyThenBatch` | confucius/server/dual_model_orchestrator.py:761-768 | a completed reply with calls is followed at the next step by a batch that ends with them |
| `AgentConservation.MemoryIsWhole` | confucius/server/dual_model_orchestrator.py:495-562 | over every run, what reached memory is what was there, then thoughts, fast texts, replies, tool and hook messages in order, marked ones aside; after `break` memory is exactly that |
| `ToolGroups.GetMaxIterations` | confucius/server/tool_groups.py:132-151 | the initial limit lies between 8 and 200 and is 8 exactly for simple tasks; otherwise it gives three iterations a step up to 200 and is never below the route's base |
| `ToolGroups.RoutedRunEnds` | confucius/server/tool_groups.py:132-151 | on every route at most 200 iterations, 201 LLM calls and 804 steps |
| `AgentTheorems.StepDrops` | confucius/orchestrator/base.py:212-229 | every step of a run that has not ended lowers the weight made of remaining iterations, the one overflow retry, waiting loops and the phase |
| `AgentTheorems.LimitStops` | confucius/orchestrator/base.py:213-219 | the limit check stops the run exactly when all iterations are used and an error is pending or the limit is already at 200 |
| `AgentTheorems.LoopNesting` | confucius/orchestrator/base.py:222-229 | only an interruption of a reply enters an inner loop and only `break` leaves one; a run is over only when the outermost loop breaks |
| `AgentTheorems.ResumedLoopCompletes` | confucius/server/dual_model_orchestrator.py:1349-1358 | a loop resumed after an inner `break` goes straight to the completion hooks, once more |
| `AgentTheorems.SkippedNudgeCallsAgain` | confucius/server/dual_model_orchestrator.py:1029-1039 | a skipped nudge leaves memory as it is and leads to another LLM call, unless the limit is reached |
| `AgentTheorems.FastModelIsContained` | confucius/server/dual_model_orchestrator.py:272-330 | at most 8 fast calls in a row, at most 8 research cycles; whenever text was shown the latest call had been to the primary model; every run that ends by `break` ends on the primary model; with one model the fast one is never called |
| `AgentRuns.StepVoice` | confucius/server/dual_model_orchestrator.py:495-562 | whatever the machine, a step shows text only after a call to the primary model, which then was the latest call |
| `AgentTheorems.ForcedForGood` | confucius/server/dual_model_orchestrator.py:278-279 | once the primary model is forced it stays forced, and no later call goes to the fast model |
| `AgentTheorems.PromptsAreBoundedAndErased` | confucius/server/dual_model_orchestrator.py:818-1375 | at most 15 control prompts besides the error breaker's (12 without a pool, 7 and 4 with one model); after `break` memory holds exactly the unmarked messages that ever arrived, in order |
| `AgentTheorems.BreakerCounts` | confucius/server/dual_model_orchestrator.py:770-816 | the count is the streak of erring batches modulo 5, the hint flag marks 3 and 4, a streak of L brings floor(L/5) STOP prompts and floor(L/5) hints, one more when L mod 5 is at least 3 |
| `AgentTheorems.PoolIsConserved` | confucius/server/dual_model_orchestrator.py:566-688 | pool and escalated groups partition the initial pool without duplicates, enabled is escalated, at most three rounds bring tools and the third empties the pool |
| `AgentTheorems.ToolsOnlyGrow` | confucius/server/dual_model_orchestrator.py:636-640 | what is enabled at any point of a run stays enabled |
| `AgentRuns.EscalationPooled` | confucius/server/dual_model_orchestrator.py:566-688 | one escalation keeps the partition, counts a round exactly when it brings tools, and leaves an empty pool alone |
| `DualModel.DualModelOrchestrator.ExtendLimit` | confucius/server/dual_model_orchestrator.py:729-744 | the iterations stay, the limit never falls and never passes 200 unless it was above, it changes only within two iterations of the end and without errors, by ten or to 200, and then an exhausted limit below 200 leaves room again |
| `DualModel.DualModelOrchestrator.ShouldUseFastModel` | confucius/server/dual_model_orchestrator.py:272-330 | the choice and the run counter are those of `Choose` |
| `DualModel.DualModelOrchestrator.GetLlmParams` | confucius/server/dual_model_orchestrator.py:353-388 | sets the model flag from the choice, and the call is recorded with that model |
| `DualModel.DualModelOrchestrator.OnLlmOutput` | confucius/server/dual_model_orchestrator.py:495-562 | fast text goes to memory and is never handed on; a long repeat of the primary text is dropped |
| `DualModel.DualModelOrchestrator.CallModel` | confucius/server/dual_model_orchestrator.py:729-758 | one pass through the head is `HeadStep`: extension, limit check, choice, call, overflow retry |
| `DualModel.DualModelOrchestrator.UpdateQualityGate` | confucius/server/dual_model_orchestrator.py:1571-1593 | the count of failing fast batches in a row, and the primary model is forced exactly when it already was or the count has reached three |
| `DualModel.DualModelOrchestrator.ProcessToolUseQueue` | confucius/server/dual_model_orchestrator.py:1397-1429 | records the batch and empties the queue; counters move only when processing ran to its end |
| `DualModel.DualModelOrchestrator.SelectAndEscalate` | confucius/server/dual_model_orchestrator.py:566-688 | groups are enabled one by one, the third round drains the pool, a small limit is raised to 20 when tools came |
| `DualModel.DualModelOrchestrator.StripSyntheticMessages` | confucius/server/dual_model_orchestrator.py:1360-1375 | memory keeps exactly its unmarked messages |
| `DualModel.DualModelOrchestrator.ProcessMessages` | confucius/server/dual_model_orchestrator.py:692-1358 | the `while True` loop with its recursive re-entry terminates, leaves by `break` or a raise, and its final state is that of a run of the state machine over the answers it consumed |
| `DualModel.DualModelOrchestrator.Impl` | confucius/orchestrator/base.py:231-242 | a whole request ends within its bounds, is the story its answers tell, and runs what its replies asked for; after `break` the last call was primary, the queue is empty and memory holds no marked message |
| `PoolTheorems.PoolNeverOverflows` | confucius/server/session_pool.py:65-91 | in every run, without any side condition, at most max(1, max_sessions) sessions |
| `PoolTheorems.MutualExclusion` | confucius/server/session_pool.py:93-117 | in every interleaving in which only unused entries are removed, at most one request holds a session, the entry's lock and I/O are that holder's, a release finds the caller's own entry, and no lock is left without a holder |
| `PoolTheorems.PinnedExactlyWhenGuarded` | confucius/server/session_pool.py:127-150 | a step keeps every request's entry in the pool exactly when it removes only entries nobody holds or waits for |
| `PoolTheorems.RemovalLetsASecondHolderIn` | confucius/server/session_pool.py:144-150 | when the session of a holding or releasing request has left the pool, full or not, any idle request that looks it up and locks it holds it as well, with another entry |
| `PoolTheorems.UnguardedBreaks` | confucius/server/session_pool.py:119-157 | the converse of mutual exclusion: from every safe state, every step that removes an entry some request uses leads on to two holders of one session |
| `PoolTheorems.FirstUnguardedStepBreaks` | confucius/server/session_pool.py:119-157 | in every run, the first step that removes an entry in use leads on to two holders of one session |
| `PoolTheorems.ReleaseUnlocksAnothersEntry` | confucius/server/session_pool.py:102-117 | a release after such a removal unlocks the other holder's entry |
| `PoolTheorems.TwoHolders` | confucius/server/session_pool.py:60-100 | a concrete run from the empty pool ends with two holders of one session |
| `PoolTheorems.RemovalKeepsMemory` | confucius/server/session_pool.py:127-137 | removing a session keeps its memory exactly when it was saved non-empty or the file already agreed, and touches no other session |
| `PoolTheorems.PoolRefinesMap` | confucius/server/session_pool.py:60-157 | pool and files together are one map from session to memory: in lossless runs it holds what was last written |
| `PoolTheorems.AcquireSeesLastWrite` | confucius/server/session_pool.py:60-100 | whoever holds a session sees the memory last written to it, across evictions, cleanups and reloads |
| `PoolHistory.LastUseIsLastAcquisition` | confucius/server/session_pool.py:93-100 | in every run, the time a session is judged by is when its entry was last acquired, or else created |
| `PoolHistory.CountIsAcquisitions` | confucius/server/session_pool.py:93-100 | the request count of an entry is the number of its acquisitions |
| `PoolHistory.CleanupGoesByAcquisition` | confucius/server/session_pool.py:119-142 | a cleanup removes a session exactly when its last acquisition is longer ago than the time to live |
| `PoolHistory.EvictionGoesByAcquisition` | confucius/server/session_pool.py:144-157 | otherwise a session leaves only for an unknown one at a full pool, and none was acquired longer ago |
| `PoolHistory.LookupMakesRoom` | confucius/server/session_pool.py:65-91 | a lookup removes one session exactly when its own is unknown and the pool is full and not empty |
| `PoolHistory.ReleaseSavesLastWrite` | confucius/server/session_pool.py:102-117 | in lossless runs a successful save leaves what was last written in the session's file, unless it is empty |
| `Sessions.SessionPool.LookUp` | confucius/server/session_pool.py:65-91 | the part of `acquire` under the pool lock is one `Lookup` step, which evicts a session used longest ago exactly when the session is unknown and the pool full; a new entry is unlocked, used now and holds what the file holds, if it can be read |
| `Sessions.SessionPool.TakeLock` | confucius/server/session_pool.py:93-100 | the rest of `acquire`: lock, I/O, time and count of the entry |
| `Sessions.SessionPool.BeginRelease` | confucius/server/session_pool.py:102-108 | `release` looks the session up again, and does nothing if it has left the pool |
| `Sessions.SessionPool.Unlock` | confucius/server/session_pool.py:115-117 | the found entry's lock is released if it was locked |
| `Sessions.SessionPool.EvictOldest` | confucius/server/session_pool.py:144-157 | a session than which none was used longer ago leaves the pool and is saved when it has messages |
| `Sessions.SessionPool.CleanupExpired` | confucius/server/session_pool.py:119-142 | a session stays exactly when its last use is no longer ago than the time to live, with the same entry; nothing joins; the count is of those that left, and they are saved |
| `MemoryTree.Consolidation` | confucius/core/analect/analect.py:180-207 | once all contexts have ended, each after its children, the session's memory holds exactly the messages retained at every level crossed, each once, in creation order, with the stamps of the way |
| `MemoryTree.OrderLeavesNoTrace` | confucius/core/memory.py:354-378 | two finished runs over the same tree and posts, in which contexts end after their children, leave the same memory, whatever the order of exits and posts |
| `MemoryTree.ReachesSessionExactly` | confucius/core/analect/analect.py:180-207 | in every run, with exits in any order: a post is in the session's memory exactly when it was retained at every level and every context on its way ended before its parent did; nothing else is there |
| `MemoryTree.StampsStay` | confucius/core/memory.py:340-352 | the path stays the origin's, the runnable is the nearest named one from there, the entry is the session's |
| `MemoryTree.ChildIsRecognisedExactly` | confucius/core/memory.py:268-288 | the path test tells a descendant's message apart exactly when a named runnable lies between |
| `MemoryTree.EarlyExitLoses` | confucius/core/analect/analect.py:198-206 | the run that opens a child and a grandchild, posts below and exits both: the retained message reaches the session exactly when the grandchild exits first |
| `MemoryTree.ExitMoves` | confucius/core/memory.py:354-378 | an exit moves the retained messages of the context to its parent, stamped, and nothing else |
| `Memory.SortHolds` | confucius/core/memory.py:217-235 | sorting permutes the messages, even when ids repeat, into ascending order, and with distinct ids into strict order |
| `Memory.OrderedIsUnique` | confucius/core/memory.py:160-161 | messages in creation order are determined by which messages they are |
| `Memory.CfMemoryManager.constructor` | confucius/core/memory.py:257-263 | a child's path is its parent's followed by its own runnable |
| `Memory.CfMemoryManager.AddMessages` | confucius/core/memory.py:340-352 | memory then holds what it held and the stamped copies, nothing else, in ascending order of ids |
| `Memory.CfMemoryManager.ConsolidateMessages` | confucius/core/memory.py:354-378 | memory then holds what it held and the stamped messages of the child whose type is both retained and included, in order; the child is left alone |
| `SchemaRefs.ExpandedIsRefFree` | confucius/utils/json.py:136-163 | the expansion has no key `$ref` anywhere |
| `SchemaRefs.RefFreeIsFixed` | confucius/utils/json.py:136-163 | a document without references is its own expansion against any root: expanding twice is expanding once |
| `SchemaRefs.KeptExactlyWhenRefFree` | confucius/utils/json.py:136-163 | expansion leaves a value as it is exactly when no dictionary in it has a key `$ref` |
| `SchemaRefs.PathOfPointer` | confucius/utils/json.py:142-145 | a number sign followed by a slash and a key, for each of a list of keys, names exactly those keys |
| `SchemaRefs.PointerOfPath` | confucius/utils/json.py:142-145 | every reference is its text before the first slash, and then a slash and a slash-free key for each key it names |
| `SchemaRefs.RefExpandsToTarget` | confucius/utils/json.py:141-147 | a dictionary with `$ref` expands to the expansion of the one value its keys lead to from the root, looked up one after the other |
| `SchemaRefs.EntriesExpandInPlace` | confucius/utils/json.py:157-160 | any other dictionary keeps its keys, and each holds the expansion of what it held |
| `SchemaTheorems.ExpansionKeepsMeaning` | confucius/utils/json.py:113-163 | the expansion of a proper schema accepts exactly the values the schema accepts, whatever document it is read against, and whatever the data keywords and patterns left open say |
| `SchemaTheorems.ConstKeptExactlyWhenRefFree` | confucius/utils/json.py:157-160 | a literal under `const` matches the same values after expansion exactly when it holds no key `$ref` |
| `SchemaCells.CellMeans` | confucius/utils/json.py:150-156 | whatever was overwritten so far, a dictionary without `$ref` spells out the expansion of what was parsed |
| `SchemaCells.ResolveMeans` | confucius/utils/json.py:143-147 | a path that leads somewhere in the parsed document leads, in the overwritten one, to the same meaning |
| `SchemaCells.OnlyKeywordListsChange` | confucius/utils/json.py:150-155 | in the caller's document nothing but the lists under the three keywords ever changes |
| `SchemaCells.ApartDenotes` | confucius/utils/json.py:157-160 | a value that refers to none of the document's dictionaries reads, out of the dictionaries, as its meaning |
| `SchemaCells.DenotesOnce` | confucius/utils/json.py:157-160 | reading a value out of the dictionaries has one outcome |
| `SchemaStore.SchemaStore.Expand` | confucius/utils/json.py:136-163 | terminates, returns a value with the expanded meaning that shares nothing with the document, and keeps the meaning of every dictionary |
| `SchemaStore.SchemaStore.Overwrite` | confucius/utils/json.py:150-155 | overwriting a keyword's list keeps every dictionary's meaning |
| `SchemaStore.SchemaStore.ExpandJsonSchemaRefs` | confucius/utils/json.py:113-163 | the version that overwrites the root while resolving against it returns the pure expansion of the parsed document |
| `Braces.ScanPicksMaximal` | confucius/utils/json.py:354-389 | the left-to-right scan picks exactly the maximal matched-brace intervals |
| `Braces.TopsAreOrdered` | confucius/utils/json.py:354-389 | the intervals come left to right and disjoint |
| `Braces.CloseMatches` | confucius/utils/json.py:366-384 | counting braces finds the matching one, and fails exactly when there is none |
| `JsonExtraction.ExtractJsonsImpl` | confucius/utils/json.py:354-389 | both loops end, the break on an empty stack is unreachable, and exactly the picked intervals are parsed, in order, into objects and errors |
| `JsonExtraction.FoundExactly` | confucius/utils/json.py:354-389 | the objects and errors are those of the intervals' texts, one for each interval |
| `JsonExtraction.FoundInOrder` | confucius/utils/json.py:354-389 | and they come in the order of their intervals |
| `BlockStripping.StripLargeBracedBlocks` | confucius/server/expert_router.py:886-930 | the character loop renders the segmentation into characters, closed blocks and an unclosed tail |
| `BlockStripping.Lossless` | confucius/server/expert_router.py:886-930 | the segments put together are the input |
| `BlockStripping.UnchangedExactly` | confucius/server/expert_router.py:886-930 | a text comes out as it is exactly when no block, and no unclosed tail, is longer than the threshold |
| `BlockStripping.StripTwice` | confucius/server/expert_router.py:886-930 | stripping is idempotent for every threshold |
| `BlockStripping.NeverLongerFrom21` | confucius/server/expert_router.py:912-929 | no text gets longer exactly when the threshold is at least 21 |
| `BlockStripping.SpansAreBlocks` | confucius/server/expert_router.py:900-919 | the texts of the spans are the block segments, one for one and in order |
| `BlockStripping.AgreesWithScanner` | confucius/server/expert_router.py:900-930 | the stripper's blocks are the JSON scanner's intervals exactly when no braces match from the first unclosed brace on |
| `IoAdapter.HttpIOInterface.Emit` | confucius/server/io_adapter.py:57-112 | what each output call does to buffer and queue; afterwards the texts of every kind are those asked for and not cleared since; logs and clearing leave the queue alone |
| `IoAdapter.HttpIOInterface.ClearResponseText` | confucius/server/io_adapter.py:146-152 | the buffer keeps all parts but the assistant's |
| `IoAdapter.HttpIOInterface.TextOf` | confucius/server/io_adapter.py:124-132 | the response text is the stripped, non-blank answers asked for since the last clearing, one a line, and likewise the thoughts, the errors and the rest |
| `IoAdapter.BufferSays` | confucius/server/io_adapter.py:57-152 | after any sequence of calls, the buffered texts of a kind are those that were asked for under that kind and not cleared since |
| `IoAdapter.LinesJoin` | confucius/server/io_adapter.py:124-132 | joining puts a newline between, and nothing before or after |
| `IoAdapter.StripTrims` | confucius/server/io_adapter.py:70-72 | stripping takes whitespace off both ends, all of it and nothing else |
| `IoAdapter.SystemKindExactly` | confucius/server/io_adapter.py:89-94 | a system message is a thought exactly when its label spells "think" somewhere in any case, otherwise progress exactly when it has a status, and else plain text |
| `IoAdapter.EmitKeepsSuffix` | confucius/server/io_adapter.py:57-152 | the buffered assistant parts stay a suffix of those queued, whatever is asked |
| `IoAdapter.ClearResponseKeepsTheRest` | confucius/server/io_adapter.py:146-152 | clearing the response keeps every other kind of part, in order |
| `Streaming.DeliveredThenQueued` | confucius/server/streaming.py:84-117 | in every interleaving, what was delivered followed by what waits is what was put |
| `Streaming.FinishedStream` | confucius/server/streaming.py:71-148 | a finished stream tells what the agent asked for: the role, the stripped text of each answer that is not blank, the text of each error, the thoughts if wanted, in order; then the error of a task that failed before its signal, the finish, the metadata if any, and the terminal marker |
| `Streaming.CollectedIsAsked` | confucius/server/io_adapter.py:57-152 | in every interleaving, the collected texts of each kind are those asked for before the signal and not cleared since |
| `Streaming.VisibleExactly` | confucius/server/streaming.py:151-199 | answers and errors are visible with their text, thoughts exactly when asked for, progress and plain text never |
| `Streaming.FailureExitExactly` | confucius/server/streaming.py:86-98 | the loop's head finds the agent done and the queue empty exactly when the task ended unsignalled and all was delivered; then the error is sent, or a cancellation breaks the stream off |
| `Streaming.BufferIsSuffix` | confucius/server/io_adapter.py:64-152 | in every interleaving the buffered assistant parts are a suffix of those queued |
| `Streaming.StreamEnds` | confucius/server/streaming.py:84-148 | once the task has signalled or ended, the stream stops within twice the queue's length plus six client steps: complete, or broken off exactly when the task was cancelled before its signal |
| `ToolQueue.EveryUseIsAnswered` | confucius/orchestrator/anthropic.py:277-385 | in queue order each use is followed by exactly one answer with its id, up to and including one whose failure is raised, which gets an error; later uses leave no trace; the error flag reflects the answers |
| `ToolQueue.OneAnswerExactlyWhenNamesDiffer` | confucius/orchestrator/anthropic.py:340-378 | a use that runs to its end gets exactly one answer exactly when at most one extension offers its name, and never none |
| `ToolQueue.ProcessAnswers` | confucius/orchestrator/anthropic.py:296-385 | one use: unsupported, successful, retryable and raised cases all answer once under its id |
| `ToolQueue.AnswerIsRight` | confucius/orchestrator/extensions/tool_use.py:163-177 | a result is passed on with its flag, whole up to 150000 characters and clipped beyond; a failure is answered by an error, and is raised exactly when it is no ordinary exception or neither verdict nor list lets it be retried |
| `ToolQueue.EveryHookRuns` | confucius/orchestrator/anthropic.py:280-294 | in a queue worked off to its end, observers and extensions have written what they write before and after each use, in order |
| `ToolQueue.ToolUseProcessor.OnToolUse` | confucius/orchestrator/extensions/tool_use.py:105-136 | a failure that may not be retried is answered in memory before it is raised again |
| `ToolQueue.ToolUseProcessor.ProcessToolUse` | confucius/orchestrator/anthropic.py:296-385 | the loop over the extensions, with truncation and notes |
| `ToolQueue.ToolUseProcessor.ProcessToolUseQueue` | confucius/orchestrator/anthropic.py:277-294 | the loop over the queue, and the error flag the dual-model orchestrator sets |
| `LlmParams.Orchestrator.DecoratedParams` | confucius/orchestrator/anthropic.py:45-81 | the copy carries the current tools, the choice of tool, the tags the model asks for and the stop sequences; the primary object keeps its scalars and every entry but tools and choice |
| `LlmParams.Orchestrator.AddBetaTag` | confucius/orchestrator/anthropic.py:83-102 | the dictionary is copied, every other entry is kept, the tags already listed stay in order and the new one follows them unless it is among them; a list that was there is extended in place |
| `LlmParams.TagsExactly` | confucius/orchestrator/anthropic.py:56-75 | which model names ask for which beta tag |
| `LlmParams.TagsAreListed` | confucius/orchestrator/anthropic.py:83-102 | the tags listed are those there were, in place, and those asked for |
| `LlmParams.Orchestrator.OverlayFastParams` | confucius/server/dual_model_orchestrator.py:241-266 | the model is the fast one's; temperature and limits are the fast one's where it has them; its entries win and others are kept; no shared dictionary is written |
| `LlmParams.Orchestrator.GetLlmParams` | confucius/server/dual_model_orchestrator.py:353-388 | a fast call gets the fast model, its temperature and limits where it has them and every entry of its dictionary; any other call the primary scalars; both get the tools and the rest of the primary's entries; and what a call leaves behind in both objects |
| `LlmParams.Orchestrator.Alternate` | confucius/server/dual_model_orchestrator.py:241-388 | over any sequence of calls every fast call is given the fast model and all entries of the fast dictionary, every other call the primary scalars, and the primary object keeps its scalars and endpoint |
| `LlmParams.CurrentToolsExactly` | confucius/orchestrator/anthropic.py:48-53 | a call is offered the current tools exactly when there are some, there never were any, or there is no shared dictionary |
| `Tags.EscapeIsCharwise` | confucius/orchestrator/extensions/tag_with_id.py:60-60 | the three replacements of the escape act on each character by itself |
| `Tags.EscapeEscapes` | confucius/orchestrator/extensions/tag_with_id.py:60-60 | escaped text holds no angle bracket, and every ampersand in it starts one of the three references |
| `Tags.UnescapeUndoesEscape` | confucius/orchestrator/extensions/tag_with_id.py:48-64 | one unescape pass undoes the escape of any text |
| `Tags.EffectivePassShortens` | confucius/orchestrator/tags.py:82-84 | a pass changes the text exactly when it holds a reference, and then shortens it |
| `Tags.ReferencesExactly` | confucius/orchestrator/tags.py:82-84 | a text starts with a reference exactly when it starts with one of the six spellings, which stand for their three characters |
| `Tags.Unescape` | confucius/orchestrator/tags.py:71-84 | the loop ends, computes the fixpoint, and leaves no reference |
| `Tags.UnescapedHasNoReference` | confucius/orchestrator/tags.py:71-84 | the fixpoint holds no reference and is idempotent |
| `Tags.RoundTripExactlyWhenNoReference` | confucius/orchestrator/tags.py:87-98 | escape then fixpoint unescape gives the text back exactly when it holds no reference |
| `Retry.ComputeSleepIntervals` | confucius/utils/decorators.py:28-52 | custom intervals are sliced as Python slices, otherwise a geometric sequence with jitter |
| `Retry.SliceIsFront` | confucius/utils/decorators.py:45-46 | custom intervals are cut to the front part of the length Python's slice has, for a negative count too |
| `Retry.Wrapper` | confucius/utils/decorators.py:96-131 | every call but the last failed retryably with time left before and after its pause; the result is the last call's; the time slept is the sum of the pauses taken |
| `Retry.CallBound` | confucius/utils/decorators.py:107-127 | at most retries + 1 calls, fewer with fewer custom intervals; with a negative count that leaves some intervals one call more than those, and one call if it leaves none |
| `Retry.CallsAreDetermined` | confucius/utils/decorators.py:96-131 | outcomes and clock fix how many calls are made |
| `Retry.FirstDecisiveCall` | confucius/utils/decorators.py:100-131 | without a limit on the duration, the first call that does not ask for a retry decides, and if there is none, all allowed calls are made |
| `Retry.NoRetryTooLate` | confucius/utils/decorators.py:112-121 | with a limit no retry starts at or after it; a retryable failure ends the calls early exactly when a clock reading has reached it, and the last pause is taken unless the first reading has |
| `Retry.TotalSleep` | confucius/utils/decorators.py:45-52 | all pauses together lie between base (2^n - 1) (1 - splay/10) and base (2^n - 1) (1 + splay/10) |
| `Retry.OnlyPositivePauses` | confucius/utils/decorators.py:115-116 | nothing is slept exactly when no interval so far was positive, and no pause takes time back |
| `Retry.FullFailureSleepsAll` | confucius/utils/decorators.py:107-130 | a full failure without a limit on the duration takes every pause |

## Left out

* Prompt texts: a control prompt is a tag for its kind and its synthetic mark.
* `_extract_described_tool_call`, `_detect_tool_intention`, `_is_refusal`, `_last_assistant_has_code` and
  `_estimate_context_chars` are arbitrary inputs of the loop.
* Sanitising of tool names (`_fix_tool_use`): the calls of a reply are the names as queued.
* Blocking of `web_search` by the search guard, the research brief text, tracing and logging.
- DualModel.DualModelOrchestrator.Impl: an `OrchestratorTermination` is one of the faults that end the run; that
  `impl` swallows it is not told apart.
- DualModel.DualModelOrchestrator.ProcessToolUseQueue: the batch arrives as one input; what happens inside it is the
  subject of `ToolQueue`.
* A run with `max_iterations` unset.
* The order in which a pool entry's save interleaves with the conversation's own writes after a removal without the
  side condition; memory contents are whole values, and message ids given anew by a load are not modelled.
* The streaming route of the server releases the session in a `finally` when the response object is returned, before
  the stream is consumed; the pool model lets requests release at any time they hold a session.
* Memory views that collect messages of parents (session, entry and runnable views), save and load of the tree.
* Posting to a context after it has ended, opening a child there and ending it twice: `MemoryTree.Allowed` excludes
  them, as `async with` does.
* `serialize_object`, `_map_json_schema_types` and `get_valid_schema`: one-branch rewrites next to the expander.
* What the data keywords of draft-07 besides type, enum, const, required, minimum and maximum say, and the matching of
  patterns: arbitrary functions of the keyword, its argument and the value. `$id` never changes what a reference is
  read against. Keywords draft-07 does not define, and annotations, decide nothing.
- JsonExtraction.ExtractJsonsImpl: `json.loads` is an arbitrary function of the text; recursion limits of the parser
  are not modelled.
* The text patterns around the block stripper and the JSON scanner (`_strip_data_blocks`, `extract_jsons`).
* Removal of leaked tool-call markup before `ai` text is stripped (a library pattern); lower-casing and white space beyond ASCII.
* The bytes of an event: events are values, a comment is one that the client's parser drops, and labels with line
  breaks are not looked into. Cancellation by the client is not modelled.
* Hints appended to tool errors, the digits of the truncation notice, tracing of tool execution.
* Fields of the parameters besides model, temperature, token limits, stop and extra arguments.
* The pattern that finds tags and the HTML parser behind `on_tag`; only the escaping of the content is modelled.
* Character references other than amp, lt and gt, in lower or upper case.
- Retry.Wrapper: the two clock readings of a retry are inputs, so nothing is assumed about time passing while
  asleep.
* Route tables, guards of the router, HTTP routes, storage, artifacts and configuration reload: finite tables or
  one-branch state.
