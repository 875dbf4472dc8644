# Verified model of the Milo search indexer

A Dafny model of the parts of the Milo search service where correctness is hard to see: the
indexer's batching and flush protocol, the audit-event handler on top of it, the search
client underneath, continue-token pagination, and the small algorithms around them.
`dafny verify dfyconfig.toml` checks everything.

## How it is built

- `Ops` defines upserts, deletes, backend contents and the coalescing of operations under the
  buffer key `index/docID`.
- `Buffering` is the `Batcher`'s locked state: a value with the specification of submitting and
  taking, and the class that updates it in place. `BatcherSteps` shows that the class runs the
  protocol's submit and tick steps.
- `SdkCall` is the chunk, retry and wait code: the loops themselves, and a one-step machine of a
  call in which a request may reach the backend although its answer is lost.
- `FlushProtocol` is the concurrent part as a transition system. Its actions are: submit, tick,
  get the turn, start a flush, begin / send / end one enqueue call, close `done`, finish a
  backend task (in queue order per index), return from waiting, heartbeat, stop the heartbeat,
  ack or nak one message, release the slot, cancel, abandon. Every action is a function of the
  state; map iteration order, network answers, task results and scheduling are free choices.
  `Reachable` ranges over all finite runs from the initial state.
- `FlushChain`, `FlushCalls`, `FlushOrder`, `FlushHistory`, `FlushRefinement`, `FlushBackend`,
  `FlushDelivery`, `FlushBounds` and `FlushProgress` each hold one invariant and its
  preservation by every action; `FlushTheorems` combines them into the main results.
- `FlushTrigger`, `FlushIntake`, `FlushHeartbeat`, `FlushChunks` and `FlushChoices` state what taking,
  tracking, heartbeating and sending do on the states' own fields, and what the surroundings may do.
- `FlushRuns` holds the induction over runs and builds reachable states. `FlushShutdown` uses it for the run that shows why ordering
  ends with shutdown, and `Uploads` to show exactly when calls wait for an upload slot.
- `Documents`, `Handler`, `PolicyCache` and `EndToEnd` take an audit event through policies to
  operations, and through the protocol to the backend's contents.
- `Pagination`, `EditDistance`, `JsonPath`, `Cel` and `Options` are the remaining algorithms.

CEL programs, title-casing, lower-casing, timestamp syntax and the network are parameters.
JSON is a tree datatype, a valid token is the record of its claims, and a message is a delivery
number with the stream sequence its metadata gives, if readable.

## Where code and comments differ

- A changed `limit` in a follow-up request is rejected only when the token's limit is not the
  server default; otherwise it is accepted and ignored (`ChangedLimitAccepted`).
- The upload-slot check assumes one upload per index and flush; a flush makes up to two enqueue
  calls per index, one for upserts and one for deletes. `TenIndexesWait` gives the exact condition
  and `TenIndexesWaitExample` accepted options that fail it.
- A server default limit beyond 32 bits is cut when it is put in a token, which can end paging
  after the first page (`CompleteExactly`).
- `Validate` says "greater than 500" where it accepts 500, and the model follows the code.
- A policy none of whose conditions compiles is cached and matches every object of its type
  (`CachedMatches`).
- A buffer key can stand for two documents when one index name extends another by a slash; the
  refinement holds exactly for names where this cannot happen (`CoalescingExact`).

## Model

| member | source | states |
|---|---|---|
| FlushTheorems.Refinement | internal/indexer/batcher.go:239-316 | in every reachable state without failures, the enqueued log, then the unsent rest of taken batches in take order, then the buffer in any order, leave the index that replaying every Submit in lock order leaves |
| FlushTheorems.SettledContents | internal/indexer/batcher.go:561-632 | once every batch is acked and nothing is pending, the backend's contents equal the replay of all submissions, lost answers and re-sends included |
| FlushTheorems.EnqueueOrder | internal/indexer/batcher.go:384-420 | unless a batch in between gave up its turn: all enqueue calls of an earlier batch have returned before a later batch starts any, two batches are never enqueueing at once, and the backend queue is in take order |
| FlushTheorems.NoShutdownNoSkip | internal/indexer/batcher.go:395-450 | before cancellation no batch is ever abandoned, so the enqueue order has no exception |
| FlushShutdown.ShutdownReorders | internal/indexer/batcher.go:395-403 | after cancellation a reachable run without any backend failure queues the newer write of a document before the older one |
| FlushTheorems.AckSafety | internal/indexer/batcher.go:580-632 | an acked message's batch had no error, and each operation submitted with it, or a newer one with its buffer key from the same batch, is in a task that succeeded; over index names none of which extends another by a slash, the newer one is for the same document |
| FlushTheorems.OneVerdictPerBatch | internal/indexer/batcher.go:619-643 | a resolved batch has all messages acked and none nacked if no call or wait failed, and all nacked and none acked otherwise |
| FlushTheorems.OnePlace | internal/indexer/batcher.go:341-355 | in every run, shutdown included, a tracked delivery is at exactly one position, of the buffer or of one batch |
| FlushTheorems.Conservation | internal/indexer/batcher.go:395-407 | a delivery has an ack iff its position is settled as acked and a nak iff as nacked, so buffered, waiting, in-flight and abandoned ones have neither; nothing, heartbeats included, follows its ack or nak; no channel is closed twice |
| FlushHeartbeat.EveryMessageBeats | internal/indexer/batcher.go:520-530 | while a batch's flush runs, some run of one step per message heartbeats every message of it, in order, and changes nothing else |
| FlushHeartbeat.NoBeatAfter | internal/indexer/batcher.go:541-548 | once the flush has stopped its heartbeat, no run ever heartbeats one of its messages again |
| FlushHeartbeat.NoBeatBefore | internal/indexer/batcher.go:569-575 | a batch still waiting for its flush, or given up, has had no message heartbeated |
| FlushTheorems.BoundedMemory | internal/indexer/batcher.go:269-303 | slots and upload slots are never exceeded, a batch holds at most B messages, and unresolved tracked messages never exceed (M+2)*B-1 |
| FlushTrigger.TakenWhenFull | internal/indexer/batcher.go:269-298 | in every reachable state the buffer holds fewer than B messages and fewer than B pending upserts, and a batch was taken by the handler iff it has at least B messages or at least B upserts, so deletes alone never trigger |
| FlushIntake.OncePerSequence | internal/indexer/batcher.go:341-355 | a batch, and the buffer, track exactly the messages that are the first with their stream sequence since the last take, and all with unreadable metadata |
| FlushIntake.HeldUpExactly | internal/indexer/batcher.go:395-450 | the handler or the ticker is held up exactly while the one batch it launched waits for its turn or a slot; once all batches are retired nobody is |
| FlushIntake.BackendContents | internal/indexer/batcher.go:580-617 | failures included, the backend holds the replay of the succeeded tasks in queue order, and no task finishes before an earlier one of its index |
| FlushChunks.TasksSized | pkg/meilisearch/sdk_client.go:245-265 | every task in the queue holds one chunk of its group: from a multiple of the chunk size to the next or to the end |
| FlushTheorems.Progress | internal/indexer/batcher.go:384-450 | from every reachable state, any schedule in which another progress step is always to come retires all taken batches, whatever the backend answers and with heartbeats and untriggered submissions in between |
| FlushProgress.SomeStep | internal/indexer/batcher.go:391-407 | while a taken batch is unresolved some step other than a submit, tick, heartbeat or cancel is enabled |
| FlushProgress.ProgressLowers | internal/indexer/batcher.go:550-633 | every such step lowers a well-founded measure over batch phases, remaining calls and queued tasks |
| FlushChoices.CanSubmit | internal/indexer/batcher.go:239-303 | a handler that is not held up can submit anything that comes with a new delivery |
| FlushChoices.CanTick | internal/indexer/batcher.go:371-382 | a ticker that is not held up can take any buffer that is not empty |
| FlushChoices.CanShutDown | internal/indexer/batcher.go:207-225 | the shutdown signal can come at any time and by itself changes nothing else |
| FlushChoices.CanGiveUp | internal/indexer/batcher.go:395-450 | after the shutdown signal every batch waiting for its turn or a slot can be given up: its channel is closed, its launcher goes free, its messages get no answer |
| FlushChoices.CanLose | pkg/meilisearch/sdk_client.go:167-191 | every attempt can be lost on the way out, leaving the queue alone, or on the way back, leaving the chunk queued; the call is retried until its tries are used up |
| FlushChoices.CanFinish | pkg/meilisearch/sdk_client.go:302-319 | the first queued task of an index can succeed, applying its operations, or fail, applying nothing |
| FlushChoices.CanTimeOut | internal/indexer/batcher.go:599-606 | a wait can fail at any time and then counts as an error of its batch |
| FlushProtocol.GroupByIndex | internal/indexer/batcher.go:561-568 | grouping yields exactly the indexes that occur, each with its items in order |
| FlushProtocol.SendableIsUnique | pkg/meilisearch/sdk_client.go:211-230 | for the distinct ids of a batch the client's filter sends exactly the non-empty ones |
| Buffering.Batcher.constructor | internal/indexer/batcher.go:174-204 | a new batcher is empty and its last enqueue channel is the one closed from the start |
| Buffering.Batcher.SetPending | internal/indexer/batcher.go:307-316 | the operation becomes the only one for its key, and the upsert counter stays the number of pending upserts |
| Buffering.Batcher.TrackMessage | internal/indexer/batcher.go:341-355 | a message is appended unless one with its readable stream sequence is already tracked |
| Buffering.Batcher.BufferOps | internal/indexer/batcher.go:248-267 | the last upsert for a document wins over any delete of the same message, without one the last delete does, and every other pending operation stays |
| Buffering.Batcher.TakeBatch | internal/indexer/batcher.go:469-492 | the batch lists every pending operation once, carries all messages and the turn channels, and the buffer is reset |
| Buffering.Batcher.Submit | internal/indexer/batcher.go:239-303 | nothing without operations; otherwise the whole message is absorbed first, and the buffer is taken iff it then holds at least B messages or at least B upserts, as a batch that is exactly the buffer |
| Buffering.Batcher.Flush | internal/indexer/batcher.go:371-382 | takes the buffer iff it holds a message or an operation |
| Buffering.ListPending | internal/indexer/batcher.go:476-482 | splits the pending map into upserts and deletes, each operation exactly once |
| BatcherSteps.SubmitStep | internal/indexer/batcher.go:239-303 | running Submit on the object is the protocol's submit step on the state it represents |
| BatcherSteps.TickStep | internal/indexer/batcher.go:371-382 | running the ticker's flush is the tick step, or no step when the buffer is empty |
| BatcherSteps.NewBatcher | internal/indexer/batcher.go:174-204 | a new object represents the initial buffer |
| Ops.KeysCollide | internal/indexer/batcher.go:307-316 | two indexes have colliding buffer keys iff one name extends the other by a slash |
| Ops.CoalescingExact | internal/indexer/batcher.go:305-316 | coalescing never changes the outcome iff no index name extends another by a slash |
| Ops.CoalescingLoses | internal/indexer/batcher.go:307-316 | for every such pair of names, two submissions of which coalescing loses one |
| SdkCall.WithRetry | pkg/meilisearch/sdk_client.go:167-191 | at most maxRetries attempts, retried only after a connection failure, success iff the last attempt was accepted |
| SdkCall.ProcessInChunks | pkg/meilisearch/sdk_client.go:245-265 | task i covers items i*chunk up to the next multiple or the end; success returns just as many tasks as cover all items, failure fewer; the requests are a legal run of the call machine |
| SdkCall.ChunksTile | pkg/meilisearch/sdk_client.go:245-265 | accepted chunks are contiguous from 0; a successful call covers everything, a failed one a strict prefix |
| SdkCall.TasksAreChunks | pkg/meilisearch/sdk_client.go:245-265 | whatever the attempts returned, the tasks are the first chunks of the items and the call stands at the start of the next |
| SdkCall.TaskCount | pkg/meilisearch/sdk_client.go:245-265 | a successful call over n > 0 items returns k tasks with (k-1)*chunk < n <= k*chunk |
| SdkCall.AttemptsBounded | pkg/meilisearch/sdk_client.go:167-191 | no chunk is tried more than maxRetries times |
| SdkCall.ResendHarmless | pkg/meilisearch/sdk_client.go:167-208 | however often chunks were re-sent after lost answers, the backend's contents are those of sending the items once |
| SdkCall.DeleteDocumentsAsync | pkg/meilisearch/sdk_client.go:211-242 | the ids sent are the first occurrences of the non-empty ones, chunked as above |
| SdkCall.UniqueMeans | pkg/meilisearch/sdk_client.go:211-230 | the filtered ids are exactly the non-empty ones, without repetition |
| SdkCall.UniqueInOrder | pkg/meilisearch/sdk_client.go:211-230 | the kept ids are in the order of their first occurrence |
| SdkCall.WaitForTasks | pkg/meilisearch/sdk_client.go:270-319 | succeeds iff every task finished and succeeded |
| Handler.Handle | internal/indexer/consumer.go:110-217 | on the event's own fields: the submitted operations are exactly those some listed policy gets, and the event is acked at once iff there is none |
| Handler.HandleWrite | internal/indexer/consumer.go:159-212 | for an admitted live write: an upsert for each matching policy, a delete for each policy of the kind that an update or patch no longer matches |
| Handler.PolicyWrite | internal/indexer/consumer.go:168-209 | one policy's part of it: the document if it matches and has an index, a delete if an update or patch of its group and kind does not match |
| Handler.HandleDelete | internal/indexer/consumer.go:237-295 | a deletion submits Delete(index, uid) exactly for the listed policies with an index whose group is the reference's when the response is absent or a Status, and whose group and kind are the response's otherwise |
| Handler.UidExactly | internal/indexer/helper.go:23-50 | the uid is the response's metadata.uid, without one the reference's uid, without that the response's details.uid |
| Handler.DyingExactly | internal/indexer/consumer.go:128-141 | an object is terminating iff its metadata carries a deletion timestamp that parses |
| Handler.TenantExactly | internal/indexer/consumer.go:50-76 | tenant name and type are the two scope annotations, the type title-cased unless it is "platform", and "platform" where one is absent or empty; single-tenant mode admits only type "platform" |
| Handler.StoresExactly | internal/indexer/consumer.go:176-196 | the stored document of a write, key by key on the event's response, target type and annotations |
| Handler.GetsExactly | internal/indexer/consumer.go:110-295 | what the handler computes for a policy is what the event's verb, response, reference and annotations say it gets |
| Handler.IndexAgrees | internal/indexer/consumer.go:110-295 | replaying the handler's operations leaves a uid in a policy's index iff the object's last event is a live write the policy matches, and then with that event's document |
| EndToEnd.BackendAgrees | internal/indexer/consumer.go:107-217 | handler and protocol together: when all batches of a run without failures are acked, the backend holds exactly what the policies say and nothing in other indexes |
| Documents.Evaluate | internal/policy/evaluation/evaluator.go:49-101 | matches iff the type agrees and there is no condition or some condition is true, in whatever order they are visited |
| Documents.ConditionSees | internal/policy/evaluation/evaluator.go:64-76 | a condition sees the object's metadata, spec and status as they are and nothing else |
| Documents.Transform | internal/policy/evaluation/evaluator.go:106-158 | the edited copy is the stripped object overlaid with the policy's type and the tenant |
| Documents.StripExact | internal/policy/evaluation/evaluator.go:106-158 | key by key, stripping changes only metadata and, for secrets, removes the payload |
| Documents.StripMetaExact | internal/policy/evaluation/evaluator.go:106-158 | key by key, metadata loses exactly managedFields and the last-applied annotation, and the annotation map when nothing else is left in it |
| Documents.DocumentExact | internal/policy/evaluation/evaluator.go:106-158 | key by key, the document: type and tenant of the policy and event whatever the object carried there, the uid added only where there is none, and otherwise what stripping leaves |
| Documents.JoinParsed | internal/policy/evaluation/evaluator.go:106-158 | parsing an apiVersion and joining it again gives it back iff it has at most one slash and none in front |
| Documents.OverlayUnchanged | internal/policy/evaluation/evaluator.go:49-158 | for a matched object the overlay leaves apiVersion and kind alone iff both are strings and the apiVersion is canonical |
| Documents.FormatSearchResult | internal/registry/resourcesearchquery/rest.go:274-320 | score and tenant are read before the internal fields are removed, and a hit formats iff what is left has a kind |
| Documents.FormattedExactly | internal/registry/resourcesearchquery/rest.go:274-320 | a hit formats iff it has a kind and its apiVersion at most one slash; the result is the hit without the four internal fields, its tenant or "platform", and the rounded score or 0 |
| Documents.RoundNearest | internal/registry/resourcesearchquery/rest.go:275-279 | the score is rounded to the nearest ten-thousandth, away from zero on a tie |
| Documents.IndexToSearch | internal/registry/resourcesearchquery/rest.go:274-320 | searching a matched object's document returns the stripped object plus its uid, with the tenant it was indexed under |
| Documents.SearchShows | internal/registry/resourcesearchquery/rest.go:274-320 | key by key, at the top level and in the metadata, what that search returns of the source object |
| PolicyCache.Compile | internal/indexer/policy_cache.go:129-151 | under each name the last condition that compiles, the others skipped |
| PolicyCache.CompiledExactly | internal/indexer/policy_cache.go:129-151 | under a name runs the last condition of that name that compiles |
| PolicyCache.ConditionExactly | internal/indexer/policy_cache.go:119-125 | a policy is Ready iff its first Ready status condition is "True" |
| PolicyCache.CurrentExactly | internal/indexer/policy_cache.go:65-158 | the version held is the one the latest usable event about the name added or updated, iff it is not terminating and, in strict mode, Ready |
| PolicyCache.Cache.constructor | internal/indexer/policy_cache.go:39-54 | a new cache is empty |
| PolicyCache.Cache.UpsertPolicy | internal/indexer/policy_cache.go:103-158 | a terminating policy, or in strict mode one that is not Ready, is evicted; any other replaces its entry |
| PolicyCache.Cache.DeletePolicy | internal/indexer/policy_cache.go:161-166 | exactly that name is removed |
| PolicyCache.Cache.OnEvent | internal/indexer/policy_cache.go:65-94 | after any events the cache holds exactly the names whose latest event is a live (and in strict mode Ready) version, compiled from it |
| PolicyCache.Cache.GetPolicy | internal/indexer/policy_cache.go:179-183 | returns the current version of that name, if there is one |
| PolicyCache.Cache.GetPolicies | internal/indexer/policy_cache.go:186-195 | lists every cached policy exactly once, in some order |
| PolicyCache.StrictIsPart | cmd/search/indexer/command.go:291-308 | fed the same events, the strict cache is a sub-map of the other one |
| PolicyCache.CachedMatches | internal/indexer/policy_cache.go:124-157 | a cached policy matches an object of its type iff a compiled condition is true or none of its conditions compiled |
| Pagination.Create | internal/registry/resourcesearchquery/rest.go:95-271 | which request is refused and why; a first request gets the formattable ones of the first hits up to its limit or the default, a follow-up those from its token's offset on, and a next token iff the page found as many hits as the limit |
| Pagination.FetchQuery | cmd/milo-search/query.go:166-189 | the loop ends; with --all and no token it returns the formattable ones of the whole hit list once and in order if the limit is still positive in 32 bits, from a token those from its offset on, with no token left and one request per full page and one more |
| Pagination.Int32Wraps | internal/registry/resourcesearchquery/rest.go:249-260 | the 32-bit limit differs from the limit by a multiple of 2^32 |
| Pagination.CompleteExactly | internal/registry/resourcesearchquery/rest.go:249-260 | following every token is complete iff the limit is still positive in the token's 32 bits or nothing formattable lies behind the first page |
| Pagination.IncompleteExample | internal/registry/resourcesearchquery/rest.go:249-260 | with a server default of 2^31 the hit behind the first page is missed |
| Pagination.PageSplits | internal/registry/resourcesearchquery/rest.go:249-271 | a page with a token is full and the rest starts where it ends; a page without one is the rest |
| Pagination.RequestsExactly | cmd/milo-search/query.go:175-186 | one request per full page and a final one that is not full, so an exact multiple of the limit costs an empty page |
| Pagination.FollowUpAccepted | internal/registry/resourcesearchquery/rest.go:198-228 | every follow-up the client builds passes the token check and gets the token's window |
| Pagination.TokenDecides | internal/registry/resourcesearchquery/rest.go:198-228 | a request with a token is answered iff it repeats query and targets and its limit is 0, the token's, or the token's is the default; the token sets limit and offset |
| Pagination.ChangedLimitAccepted | internal/registry/resourcesearchquery/rest.go:213-219 | a changed limit is refused iff the token's limit differs from the server default |
| Pagination.ChangedLimitExample | internal/registry/resourcesearchquery/rest.go:213-219 | a follow-up asking for 50 is answered with the token's 10 when 10 is the default |
| Pagination.SessionBound | internal/registry/resourcesearchquery/rest.go:198-260 | along any accepted session query, targets and limit are constant and the offset advances by exactly the limit |
| EditDistance.FillRow | cmd/milo-search/helpers.go:226-251 | fills the second row with one row of the recursive distance and leaves the first alone |
| EditDistance.Levenshtein | cmd/milo-search/helpers.go:226-251 | the two-row loop computes the recursive distance |
| EditDistance.NoneCheaper | cmd/milo-search/helpers.go:225-251 | no edit script between the strings costs less than the distance |
| EditDistance.Attained | cmd/milo-search/helpers.go:225-251 | some edit script costs exactly the distance |
| EditDistance.Symmetric | cmd/milo-search/helpers.go:225-251 | the distance is symmetric |
| EditDistance.ZeroIsEqual | cmd/milo-search/helpers.go:225-251 | the distance is zero iff the strings are equal |
| EditDistance.OneEdit | cmd/milo-search/helpers.go:225-251 | replacing, adding or removing one byte at the end costs one |
| EditDistance.Triangle | cmd/milo-search/helpers.go:225-251 | the distance satisfies the triangle inequality |
| EditDistance.NearestKind | cmd/milo-search/helpers.go:207-223 | returns the first kind of minimal case-insensitive distance iff that is at most 1 + len/3; a kind that differs only in case always wins |
| JsonPath.ValidatePath | internal/jsonpath/validator.go:40-60 | valid iff the path starts with a dot and splits into segments; a syntax error names the suffix at which no segment starts |
| JsonPath.ValidMeans | internal/jsonpath/validator.go:14-60 | the accepted paths are exactly the printed texts of well-formed segment lists that begin with a field |
| JsonPath.WellFormedExactly | internal/jsonpath/validator.go:9-14 | the characters a field name, a quoted key and an index may have |
| JsonPath.SegmentsOfPrint | internal/jsonpath/validator.go:14-60 | splitting a printed segment list gives that list back |
| JsonPath.ParsePath | internal/policy/evaluation/evaluator.go:162-209 | the consuming loop ends on every string and computes the recursive parse |
| JsonPath.ParserAgrees | internal/policy/evaluation/evaluator.go:162-209 | on a path that splits into segments the parser returns exactly their keys iff no quoted key contains a closing bracket |
| JsonPath.UnclosedParsesToNothing | internal/policy/evaluation/evaluator.go:170-174 | a bracket that is never closed makes the parser return nothing |
| JsonPath.PrintRoundTrip | internal/policy/evaluation/evaluator.go:162-209 | printing segments, validating and parsing returns the segments and their keys |
| Cel.AcceptedMeans | internal/cel/validator.go:102-191 | the check accepts iff every node reachable from the root is within the maximum depth and every call is allow-listed, internal, or a list concatenation |
| Cel.OperatorsExactly | internal/cel/validator.go:11-43 | a call over plain operands is accepted iff its operator is one of the listed ones or internal |
| Cel.PlusNeedsList | internal/cel/validator.go:118-133 | addition is accepted only with a list literal operand |
| Cel.DepthExactly | internal/cel/validator.go:106-108 | a tree of n levels is accepted iff n does not exceed the maximum depth |
| Cel.ChildrenComplete | internal/cel/validator.go:135-188 | every direct part of an expression is visited |
| Uploads.CallWaitsExactly | internal/indexer/batcher.go:580-590 | before shutdown some run keeps a call of a flush of at most w calls waiting for an upload slot iff there are fewer than w |
| Uploads.CallWaitsEverExactly | internal/indexer/batcher.go:580-590 | shutdown included, iff there are fewer than w per flush slot |
| Uploads.IndexWaitsExactly | internal/indexer/batcher.go:561-615 | before shutdown some run keeps a call of a flush to at most k indexes waiting iff there are fewer than 2k upload slots |
| Uploads.IndexWaitsEverExactly | internal/indexer/batcher.go:561-615 | shutdown included, iff there are fewer than 2k per flush slot |
| Options.AcceptedConfig | cmd/search/indexer/command.go:155-234 | accepted options give a working configuration with exactly the limits they name |
| Options.AcceptedExactly | cmd/search/indexer/command.go:155-234 | which options are accepted |
| Options.DefaultConfig | internal/indexer/batcher.go:174-186 | limits left unset become 16 flushes, 100 uploads, chunks of 1000 and 3 tries, and the configuration works |
| Options.TenCallsNeverWait | cmd/search/indexer/command.go:192-199 | with accepted options, flushes of up to ten calls never wait for an upload slot, shutdown included |
| Options.TenIndexesWait | cmd/search/indexer/command.go:192-199 | with accepted options, flushes to ten indexes can wait before shutdown iff there are fewer than twenty upload slots, and at any time iff there are fewer than twenty per flush slot |
| Options.TenIndexesWaitExample | cmd/search/indexer/command.go:192-199 | accepted options (one flush slot, ten upload slots) under which a flush to ten indexes waits |
| Options.TwoFlushesSuffice | cmd/search/indexer/command.go:192-199 | with two flush slots or more, accepted options never make such a flush wait before shutdown |
| Options.ToleratesExactly | cmd/search/indexer/command.go:32-40 | losing k heartbeats in a row keeps landing ones within ackWait for every schedule iff k+1 intervals fit |
| Options.AcceptedHeartbeat | cmd/search/indexer/command.go:209-231 | of otherwise valid options exactly those are accepted whose heartbeat survives two consecutive lost ticks |
| Options.CheckedWait | cmd/search/indexer/command.go:468-485 | startup fails iff one lost tick is too many for the live ackWait, and stays silent iff two are tolerated |

## Left out

- IndexAgrees: assumes the conditions under which the source can agree at all: policies with their own non-empty index names, one type per object, creates first, resolvable uids, correct groups on deletes and admitted tenants.
- EnqueueOrder: excludes batches skipped at shutdown, where the order does not hold. Its queue order also assumes that a request whose answer was lost was queued during that attempt or never; one that the backend queues only after later requests is not modelled.
- SettledContents: makes the same assumption about lost answers.
- Contents after a failed or redelivered batch: older operations then come back, so only acknowledgement, conservation, order and bounds are proved there.
- Order between the audit batcher and the re-index batcher, which are separate instances with separate chains.
- Offsets and durations are unbounded integers; 64-bit overflow is not modelled.
- The `ResourceIndexPolicy` controller, the tenant registry and the project watcher: sequenced API calls with easy claims only.
- Token signing and expiry, user identity, target classification and tenant filters of the search endpoint.
- Meilisearch itself beyond an ordered task queue per index and a stable ranked hit list; its cap on total hits is not modelled.
- Events that fail to decode, metrics, logging, backpressure warnings, retry delays and real time.
- The command line's rendering, exit codes and flag checks.
