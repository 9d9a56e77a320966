# Verified models of Koed's privacy, pairing and embedding logic

This Dafny 4.11 project models the parts of Koed whose correctness is hardest to see from the code:
the Privacy Service inference pipeline, the recovery and pooling of its workers, the personal-device
pairing server, the embedding batcher and the conversation timeline. Each file is one component;
`dafny verify dfyconfig.toml` checks them all.

| file | component |
|---|---|
| `Labels.dfy`, `Decoder.dfy`, `Labellings.dfy` | the 33 BIOES labels, the constrained Viterbi decoder over scores with a finite "impossible", and which labellings are legal |
| `Utf8.dfy`, `Offsets.dfy` | UTF-16 text, its UTF-8 bytes, and the offset tables between them |
| `Spans.dfy`, `Masking.dfy` | spans of a label path, their union with deterministic detections, and the masked text |
| `Windowing.dfy` | sliding-window inference and the offsets of vocabulary tokens |
| `InferenceContract.dfy`, `FieldClassification.dfy` | batches of short fields, and the fields of one request |
| `OnnxPool.dfy`, `PoolOutcomes.dfy` | the two-slot worker pool; what becomes of each of its jobs |
| `Admission.dfy`, `AdmissionOutcomes.dfy` | the admission of requests in front of the pool; when one is admitted and how it is served |
| `RuntimeManager.dfy`, `Supervised.dfy`, `Framing.dfy` | swapping runtimes, rate-limited recovery, and frames over arbitrary chunks |
| `Pairing.dfy`, `PairingOutcomes.dfy` | claim, approve and complete over a chain of durable writes, with crashes and restarts; what each operation achieves |
| `Embedding.dfy` | greedy batching of text chunks |
| `Timeline.dfy`, `Conversation.dfy` | grouping events into rows with stable keys; expanding transcripts, and the ids of rows |
| `Wrappers.dfy`, `Sequences.dfy` | optional values and results; bounds, joining and stable sorting of lists |

## How the models are built

Code that updates state in place is a method or a class whose contract ties the new state to a function
of the old one; what the code is for is proved about those functions. The pool, the worker, the runtime
manager, the supervisor, admission and pairing are also state machines whose steps are everything
between two awaits, and their main results hold after every list of events. Inference, tokenization,
JSON, the secret detector and the durable store are parameters: a model is any function, a batch may
answer in any order, a failed write may leave the old or the new value, a synchronous exception may
come from any job, and a process may stop at any point.

For each machine there are two kinds of results. Invariants hold after every list of events. Outcomes say what
an event, or an operation with its writes and continuations, leaves in each field and in the store, with the
constants written out; they do not mention the functions that define the steps.

## What the proofs found

- `decodeBioesViterbi` scores an impossible start with -1e30 and accepts an end above -5e29. With logits
  and biases bounded above it succeeds exactly when some valid path scores above -5e29, and then returns a
  best one. With a bound below as well it always succeeds. Without the lower bound it can refuse a text
  that has valid paths (`Decoder.SentinelLogitsAreRefused`), and without the upper one the sentinel can
  beat them (`Decoder.SentinelCanWin`). For any logits a valid path is returned exactly if it is above
  the cut-off and beats everything else that may end, where of equals the one with the earlier label wins,
  read from the end.
- Restore reads the first eight stored entries and drops the rest, while a failed delete puts a stale entry
  back. Eight failed deletes and one approval lose the approval (`Pairing.ApprovalLostBehindEight`). An
  acknowledged claim survives a restart that writes exactly if its own entry is among the first eight
  (`Pairing.RestartKeepsEntry`); how many other entries there are does not matter.
- A second `claimApproval` returns while the first one's write is still under way. Its promise is kept
  exactly if that write is stored (`Pairing.EarlyReturnBinds`); from every other outcome another request
  can take the invitation (`Pairing.EarlyReturnUnbinds`). A claim that overlaps anything else is harmless.
- An approval that starts while a claim's write is under way is as good as one that waited exactly if that
  write is stored (`Pairing.EarlyApprovalBinds`). Otherwise it can be stored and answered without a claim, and
  the ordinary end of the invitation then deletes it (`Pairing.EarlyApprovalIsLost`).
- The pairing results about an invitation therefore hold in its *disciplined* runs: none of its claims
  returns while a claim of it may still be taken back, none of its approvals starts then, and no restart
  loses its entry. What happens to other invitations does not matter. No weaker discipline keeps the
  invariant (`Pairing.StepInv`, `Pairing.DisciplineIsExact`).
- After a claim has returned the invitation is never cancelled. The other order is possible: a failed claim
  write may have stored the claim, the user cancels, and a restart revives it
  (`Pairing.CancelledThenClaimed`). `Pairing.CancelledAndClaimed` says exactly in which runs.
- If the `onReady` callback throws during a recovery that has attempts left, the next attempt puts an
  unmeasured runtime behind a set ready flag (`Supervised.ThrowExposes`). Readiness stops meaning the
  baseline's output exactly where that happens (`Supervised.MatchesExactly`).
- Rows of distinct events have distinct ids exactly if no two tool runs join to the same id and no lone event
  is called like a run (`Conversation.GroupedIdsDistinct`). On what a conversation shows this always holds:
  the ids of stored events are UUIDs, and those of expanded transcripts can be read back
  (`Conversation.ShownRowsDistinct`).
- `embedText` compares only the first vector with the expected dimensions, and no chunk at all counts as
  zero dimensions.

## Model

| member | source | states |
|---|---|---|
| `Labels.TableOrder` | apps/privacy-service/src/labels.ts:20-25 | the label table holds O first and then, for each category, its B, I, E and S labels in that order |
| `Labels.LabelIndexInverse` | apps/privacy-service/src/labels.ts:20-25 | every label stands in the table at its own index |
| `Labels.IndexLabelInverse` | apps/privacy-service/src/labels.ts:20-25 | every index of the table names a label with that index, so the table has no duplicates |
| `Labels.ParseLabelText` | apps/privacy-service/src/labels.ts:30-40 | parsing the text of a label gives its boundary tag and category back, and O gives none |
| `Labels.PlaceholderText` | apps/privacy-service/src/labels.ts:27-28 | the placeholder of a category is its name in capitals between brackets |
| `Decoder.DecodeBioesViterbi` | apps/privacy-service/src/decoder.ts:140-206 | the path obeys the start, transition and end rules and is a best valid path; with scores bounded above it fails exactly when no valid path scores above the cutoff, and never in the backtrace; with a lower bound it succeeds; for any scores a path is valid and returned exactly if it wins: it is above the cutoff, and every other chain that may end, legal or out of the sentinel, scores less or as much and comes later |
| `Decoder.TableDominates` | apps/privacy-service/src/decoder.ts:151-181 | each score of the forward table is at least the score of every valid path that ends there |
| `Decoder.WalkScore` | apps/privacy-service/src/decoder.ts:190-205 | following the back pointers from a reached cell gives a path with exactly the cell's score |
| `Decoder.SentinelOrigin` | apps/privacy-service/src/decoder.ts:151-205 | a cell whose back pointers reach no legal start has exactly the score of a chain that comes out of the sentinel |
| `Decoder.OriginFirst` | apps/privacy-service/src/decoder.ts:158-180 | of all the chains that give a table entry its score, the back pointers give the first: strict comparison in list order decides every tie |
| `Decoder.AliveWalk` | apps/privacy-service/src/decoder.ts:4-4 | with scores bounded above, a cell above the cutoff is reached without the sentinel, so it never displaces a real path |
| `Decoder.BackgroundPath` | apps/privacy-service/src/decoder.ts:83-107 | the all-O path is valid, so a valid path of every length exists |
| `Decoder.SentinelLogitsAreRefused` | apps/privacy-service/src/decoder.ts:183-188 | without a lower bound on the logits the decoder refuses an input that has valid paths |
| `Decoder.SentinelCanWin` | apps/privacy-service/src/decoder.ts:145-180 | without an upper bound finite logits exist on which the sentinel beats every valid path |
| `Decoder.CutOffIs` | apps/privacy-service/src/decoder.ts:183-188 | the cut-off below which no path is accepted is -5e29 |
| `Labellings.LegalExactly` | apps/privacy-service/src/decoder.ts:83-107 | a labelling is legal exactly if it is a row of pieces, each an O, a single S, or a B, any number of I and an E of one category |
| `Labellings.ScoreOfPieces` | apps/privacy-service/src/decoder.ts:109-123 | the score of a legal labelling is the sum of its logits and of the biases its pieces pay, inside each and from one to the next |
| `Labellings.SegmentsApart` | apps/privacy-service/src/masking.ts:29-76 | different segments of a labelling have no token in common |
| `Utf8.DecodeEncode` | apps/privacy-service/src/offsets.ts:84-94 | decoding the UTF-8 bytes of scalar values gives the scalar values back |
| `Utf8.CharactersSpell` | apps/privacy-service/src/offsets.ts:31-48 | the scalar values of a text, written as UTF-16 again, are the text with every lone surrogate replaced by U+FFFD |
| `Utf8.Utf8Split` | apps/privacy-service/src/offsets.ts:84-94 | cutting a text at a character boundary cuts its UTF-8 bytes at the length of the first part, lone surrogates included |
| `Utf8.CutsLocate` | apps/privacy-service/src/offsets.ts:31-48 | every byte lies in exactly one character |
| `Offsets.CreateUtf8OffsetLookup` | apps/privacy-service/src/offsets.ts:96-107 | the table holds the byte offset of every character boundary of the text and nothing in between |
| `Offsets.LookupAgrees` | apps/privacy-service/src/offsets.ts:108-119 | the table and slicing-and-measuring give the same result or the same error for every pair of positions, and the undefined-entry error never occurs |
| `Offsets.ExpandToUtf8Boundaries` | apps/privacy-service/src/offsets.ts:27-51 | a valid byte range is widened to exactly the bytes of the characters it touches, and an invalid one is refused |
| `Spans.ModelSpans` | apps/privacy-service/src/masking.ts:29-76 | on a valid path every B finds its E, the spans are those of the path's segments, every non-O token is in one, and it succeeds when the offsets cover the text |
| `Spans.BytesOfTokens` | apps/privacy-service/src/masking.ts:29-76 | the bytes of a run's span are exactly the bytes of its tokens |
| `Spans.UnionSpans` | apps/privacy-service/src/masking.ts:78-94 | the output is sorted and disjoint, hides exactly the candidates' bytes, each span sums up the candidates inside it, is no longer than their overlaps demand, and keeps the category of the first one unless a secret is among them |
| `Spans.MergedIsUnion` | apps/privacy-service/src/masking.ts:78-94 | merging candidates sorted by start, one by one, yields such a union |
| `Masking.MaskBytes` | apps/privacy-service/src/masking.ts:167-178 | the moving cursor emits the source with each span replaced by its placeholder and every other byte in order, read byte by byte and read as stretches between the spans |
| `Masking.MaskedTextDecodes` | apps/privacy-service/src/masking.ts:158-178 | the masked bytes are well-formed text: the source's characters with each span's characters replaced by its placeholder |
| `Masking.HidingIsExact` | apps/privacy-service/src/masking.ts:134-157 | a byte is hidden exactly if its character touches a token labelled non-O or a deterministic detection, and a span is a secret exactly if a merged candidate was |
| `Masking.ReportsAreExact` | apps/privacy-service/src/masking.ts:159-165 | what is reported of merged spans that are right is right: the same bytes, categories and detectors |
| `Masking.MaskClassification` | apps/privacy-service/src/masking.ts:103-178 | end to end, about the reported spans: they are sorted, disjoint, not empty and on character boundaries; the masked text is the source with each reported range replaced by the placeholder of its reported category; for a legal labelling, which every bounded input decodes to, exactly the bytes of characters that touch a tagged token or a detection are reported, no range is longer than overlaps demand, it is a secret exactly if a secret token or a detection lies in it and else has the category of its first tagged token, and it names its detectors; and the error cases |
| `Windowing.ClassifyPrepared` | apps/privacy-service/src/runtime.ts:587-660 | one row per token, from the window whose core holds it, and an error exactly if some window returns another number of rows than tokens |
| `Windowing.Window` | apps/privacy-service/src/runtime.ts:607-615 | every window has at least one and at most 512 tokens |
| `Windowing.WindowReaches` | apps/privacy-service/src/runtime.ts:596-615 | the window of a token holds the 256 tokens of its core and up to 128 on either side, each in its place, and at most 512 |
| `Windowing.WindowsAgreeWithWhole` | apps/privacy-service/src/runtime.ts:596-652 | for a model whose rows depend on tokens within the context radius only, the windowed row of each token is its row of the whole field |
| `Windowing.ClassifyLocally` | apps/privacy-service/src/runtime.ts:596-652 | for such a model windowed inference is whole-field inference |
| `Windowing.VocabularyTokenOffsets` | apps/privacy-service/src/runtime.ts:232-274 | it succeeds exactly if every token has bytes and together they spell the source, and then gives each token the place of its bytes |
| `Windowing.OffsetsTile` | apps/privacy-service/src/runtime.ts:248-273 | those offsets tile the source without gaps or overlap, and each spells its own token |
| `InferenceContract.LimitsImplyPositions` | apps/privacy-service/src/inference-contract.ts:16-34 | a batch is accepted exactly if it has one to eight rows with distinct ids and 1 to 256 tokens each; the position limit refuses none |
| `InferenceContract.ValidateBatchOutput` | apps/privacy-service/src/inference-contract.ts:36-72 | it succeeds exactly if the output answers every input once with one row of 33 finite numbers per token, and returns each input's own rows in input order |
| `FieldClassification.PrepareRound` | apps/privacy-service/src/field-classification.ts:63-84 | a round takes the next fields in order: eight, or up to the second one over 256 tokens, or all that are left; it fails only if a callback does or its tokens exceed 526,336, which takes a field over 262,144 |
| `FieldClassification.Bucket` | apps/privacy-service/src/field-classification.ts:101-101 | a bucket is 32, 64, 128 or 256, holds the field, and above 32 is less than twice its length |
| `FieldClassification.BuildTasks` | apps/privacy-service/src/field-classification.ts:85-133 | the loop lists one task per long field and one per bucket, each bucket sorted by length |
| `FieldClassification.RoundTasks` | apps/privacy-service/src/field-classification.ts:85-133 | every field with tokens is in exactly one task, and each short task is one bucket's fields |
| `FieldClassification.LongsComeFirst` | apps/privacy-service/src/field-classification.ts:85-133 | the tasks of a round begin with the long fields, one each, in order |
| `FieldClassification.BatchesAre` | apps/privacy-service/src/field-classification.ts:100-133 | there is one batch for each of the sizes up to 32, 64, 128 and 256 tokens that occurs, with all its fields by length and then by index |
| `FieldClassification.BatchesFollow` | apps/privacy-service/src/field-classification.ts:100-107 | the batches are in the order in which their sizes first occur |
| `FieldClassification.BatchIsValid` | apps/privacy-service/src/field-classification.ts:111-119 | every batch built is one that `validateBatchInput` accepts |
| `FieldClassification.PaddingIsBounded` | apps/privacy-service/src/field-classification.ts:101-110 | above the smallest bucket a padded batch has fewer than twice its real tokens |
| `FieldClassification.ByLengthRises` | apps/privacy-service/src/field-classification.ts:107-110 | the fields of a batch are in order of length |
| `FieldClassification.DisjointTasks` | apps/privacy-service/src/field-classification.ts:53-60 | no two tasks publish the same index |
| `FieldClassification.RunRound` | apps/privacy-service/src/field-classification.ts:134-151 | with two runners and any order of completion, all tasks of a round are published, or a batch was rejected, or something was aborted or threw |
| `FieldClassification.ClassifyRequestFields` | apps/privacy-service/src/field-classification.ts:37-157 | every field is published once with its own rows for every order of completions and batch outputs; the only failures are a batch whose output does not answer it, a field over the limit, an abort and a callback that throws, each at any moment of any round |
| `OnnxPool.StepInv` | apps/privacy-service/src/onnx-pool.ts:87-237 | every step keeps the counts equal to the queued and running jobs, at most 4 outstanding and 2048 active positions, no empty queue, and every accepted job in exactly one place |
| `OnnxPool.SettledOnce` | apps/privacy-service/src/onnx-pool.ts:165-217 | in every run no job is settled twice, and a settled job neither waits nor runs |
| `OnnxPool.RunKeeps` | apps/privacy-service/src/onnx-pool.ts:207-217 | settlements and dispatches are never taken back |
| `OnnxPool.PumpQuiet` | apps/privacy-service/src/onnx-pool.ts:188-227 | a pump never stops early, also when jobs throw synchronously and re-enter it |
| `OnnxPool.WaitingHasAReason` | apps/privacy-service/src/onnx-pool.ts:188-227 | in every run with no pump due, jobs wait only because every ready worker is busy or because the head needs room that a running job holds |
| `OnnxPool.BoundedBypass` | apps/privacy-service/src/onnx-pool.ts:192-203 | while a group waits unserved, other groups start at most as many jobs as there were queues ahead of it, at most three |
| `OnnxPool.PumpTurn` | apps/privacy-service/src/onnx-pool.ts:192-203 | each job another group starts brings a waiting group exactly one place forward |
| `OnnxPool.OnnxPoolExecution.Enqueue` | apps/privacy-service/src/onnx-pool.ts:138-186 | the in-place enqueue is the enqueue step, accepts exactly when the pool may, and numbers the job |
| `OnnxPool.OnnxPoolExecution.Pump` | apps/privacy-service/src/onnx-pool.ts:188-227 | the loop over the slots, with its re-entrant finish, is the pump function |
| `OnnxPool.OnnxPoolExecution.FinishSlot` | apps/privacy-service/src/onnx-pool.ts:207-217 | finishing frees the slot and its positions, pumps, and then settles the job |
| `OnnxPool.OnnxPoolExecution.OnAbort` | apps/privacy-service/src/onnx-pool.ts:165-178 | aborting a queued job removes it and its empty queue, and leaves any other job alone |
| `OnnxPool.OnnxPoolExecution.Unload` | apps/privacy-service/src/onnx-pool.ts:233-237 | unloading stops the pool and aborts every queued job, in whatever order the listeners of the shutdown signal run |
| `OnnxPool.StopSettles` | apps/privacy-service/src/onnx-pool.ts:165-178 | unloading settles exactly the jobs that wait, each once as aborted, in that order |
| `OnnxPool.OnnxPoolExecution.LoadEnds` | apps/privacy-service/src/onnx-pool.ts:87-107 | the pool loads only if both workers are ready and it is not stopping; otherwise it has failed and stops |
| `PoolOutcomes.FinishedSettles` | apps/privacy-service/src/onnx-pool.ts:207-225 | the end of an execution settles its job last, with that outcome; before it only jobs that throw are settled, as rejected |
| `PoolOutcomes.StepSettles` | apps/privacy-service/src/onnx-pool.ts:165-225 | every settlement of every step has its reason: the execution of the job ended so on the slot that ran it, or it threw and was rejected, or it was aborted while it waited |
| `PoolOutcomes.SettledBecause` | apps/privacy-service/src/onnx-pool.ts:165-225 | over every run, behind each settlement there is the step that made it, for such a reason |
| `PoolOutcomes.ResolvedByItsWorker` | apps/privacy-service/src/onnx-pool.ts:207-225 | over every run, a job is resolved only by the resolved execution on the slot that runs it |
| `PoolOutcomes.AbortedNeverStarted` | apps/privacy-service/src/onnx-pool.ts:165-178 | over every run, an aborted job never starts, unless its own execution ended as aborted |
| `PoolOutcomes.FirstComeFirstServed` | apps/privacy-service/src/onnx-pool.ts:180-203 | over every run, the jobs of one request start in the order in which they were accepted |
| `PoolOutcomes.StepHandles` | apps/privacy-service/src/onnx-pool.ts:188-227 | a job that a step starts runs on a slot or has thrown and been rejected, and a running job stays until it ends |
| `PoolOutcomes.EnqueueAccepts` | apps/privacy-service/src/onnx-pool.ts:138-150 | a job is accepted exactly with a live signal, a pool that is up, fewer than four jobs waiting or running, and 1 to 2048 positions |
| `PoolOutcomes.WorkerIsReady` | apps/privacy-service/src/onnx-pool.ts:55-63 | whether a worker is ready is what its last event said |
| `PoolOutcomes.LoadDecides` | apps/privacy-service/src/onnx-pool.ts:87-107 | the first load that ends loads the pool exactly if both workers are ready and nothing stopped it; otherwise it has failed and stops |
| `Admission.RoomForInference` | apps/privacy-service/src/onnx-pool.ts:144-150 | whenever an admitted request asks for an inference, fewer than four jobs are outstanding |
| `Admission.AdmittedIsServed` | apps/privacy-service/src/server.ts:163-195 | in every run at most two requests are admitted, and neither the preparation limit nor the pool's limit ever refuses one of them |
| `Admission.PhaseInv` | apps/privacy-service/src/runtime.ts:343-374 | reserving, claiming, preparing and releasing keep the counters right, and preparation is refused to nobody who was admitted |
| `Admission.LiveAfter` | apps/privacy-service/src/onnx-pool.ts:138-237 | no step of the pool brings back a job; only an accepted request adds one |
| `AdmissionOutcomes.ReserveAdmits` | apps/privacy-service/src/server.ts:166-189 | a request is admitted exactly if the pool is up and fewer than two are unreleased with both workers ready, or none with one ready |
| `AdmissionOutcomes.ReleaseFrees` | apps/privacy-service/src/server.ts:184-188 | releasing gives exactly that place back, unless the request is at work |
| `AdmissionOutcomes.ClaimedWorks` | apps/privacy-service/src/runtime.ts:342-350 | a claimed request always gets to work |
| `AdmissionOutcomes.RunnersStart` | apps/privacy-service/src/field-classification.ts:134-144 | a round of one task gets one runner and a longer one two |
| `AdmissionOutcomes.InferenceIsTaken` | apps/privacy-service/src/onnx-pool.ts:138-150 | an inference of a request at work is always taken if its signal is live, the pool is up and it has 1 to 2048 positions |
| `AdmissionOutcomes.AwaitedIsInPool` | apps/privacy-service/src/onnx-pool.ts:138-186 | in every run the job a runner waits for is its own request's, and it waits, runs or is settled |
| `AdmissionOutcomes.TwoWorkAtOnce` | apps/privacy-service/src/server.ts:166-182 | a run from the start in which two requests work at once with two jobs each, the pool is full, and a third request is refused |
| `RuntimeManager.SlotsAreDisposedOnce` | apps/privacy-service/src/runtime-manager.ts:568-653 | in every run a slot with a request in flight is not disposed, a retired idle one is, none twice, and every runtime that is or was active gave the baseline output itself |
| `RuntimeManager.SwitchSucceeds` | apps/privacy-service/src/runtime-manager.ts:546-635 | a switch whose candidate matches and pays makes the target the active provider, whatever requests come and go meanwhile; any other leaves the active slot |
| `RuntimeManager.SwitchDecides` | apps/privacy-service/src/runtime-manager.ts:604-635 | the end of a matched switch, field by field |
| `RuntimeManager.ParityDecides` | apps/privacy-service/src/runtime-manager.ts:568-606 | a candidate matches exactly if identity and output do, and only then its provider is verified |
| `RuntimeManager.RequestLeaves` | apps/privacy-service/src/runtime-manager.ts:353-356 | the end of a request frees its slot, and disposes it exactly if it was the last on a slot no longer active |
| `RuntimeManager.RetiredDrains` | apps/privacy-service/src/runtime-manager.ts:353-356 | a slot that is no longer active is disposed once its requests have ended |
| `RuntimeManager.PrivacyRuntimeManager.StartRequest` | apps/privacy-service/src/runtime-manager.ts:335-346 | a request takes the active slot and counts as in flight there |
| `RuntimeManager.PrivacyRuntimeManager.EndRequest` | apps/privacy-service/src/runtime-manager.ts:353-356 | the end of the last request of a retired slot disposes it |
| `RuntimeManager.PrivacyRuntimeManager.StartSwitch` | apps/privacy-service/src/runtime-manager.ts:546-552 | a switch starts exactly if its target is not the active provider |
| `RuntimeManager.PrivacyRuntimeManager.FailLoad` | apps/privacy-service/src/runtime-manager.ts:556-567 | a candidate that does not load ends the switch and changes nothing else |
| `RuntimeManager.PrivacyRuntimeManager.Compare` | apps/privacy-service/src/runtime-manager.ts:568-603 | the candidate is accepted exactly if its identity and its own parity output match, and otherwise its provider is no longer verified |
| `RuntimeManager.PrivacyRuntimeManager.FinishSwitch` | apps/privacy-service/src/runtime-manager.ts:604-633 | a matched candidate becomes active and the slot before it retires, disposed at once if idle |
| `Supervised.FilterAttempts` | apps/privacy-service/src/supervised-runtime.ts:181-181 | the attempts kept are those recent at the reading taken for each |
| `Supervised.AttemptsAreSpread` | apps/privacy-service/src/supervised-runtime.ts:174-212 | with a non-decreasing clock any four consecutive recovery attempts span at least 300,000 ms, also across recoveries that are rejected early |
| `Supervised.ReadyMatchesBaseline` | apps/privacy-service/src/supervised-runtime.ts:106-125 | readiness implies that the current runtime's parity output is the baseline, as long as `onReady` does not throw before the last attempt |
| `Supervised.GuardedExactly` | apps/privacy-service/src/supervised-runtime.ts:182-212 | readiness is guarded all along a run exactly if that never happens |
| `Supervised.MatchesExactly` | apps/privacy-service/src/supervised-runtime.ts:182-212 | readiness means the baseline's output all along a run exactly if no wait ends with a new candidate made current while the ready flag is set |
| `Supervised.ThrowExposes` | apps/privacy-service/src/supervised-runtime.ts:203-210 | after such an exception the next attempt makes an unmeasured runtime current while ready is set |
| `Supervised.BaselineStays` | apps/privacy-service/src/supervised-runtime.ts:106-118 | the baseline never changes once it is set |
| `Supervised.OldAttemptsGo` | apps/privacy-service/src/supervised-runtime.ts:176-181 | when the old runtime is gone exactly the attempts of the last 300,000 milliseconds are kept, in order |
| `Supervised.WaitsAre` | apps/privacy-service/src/supervised-runtime.ts:182-185 | the first, second and third recent attempt wait 250, 1,000 and 5,000 milliseconds, and there is no fourth |
| `Supervised.CandidateDecides` | apps/privacy-service/src/supervised-runtime.ts:186-211 | a candidate is accepted exactly if it has the first runtime's identity, is ready and gave the baseline; otherwise the loop goes on |
| `Supervised.RecoverySucceeds` | apps/privacy-service/src/supervised-runtime.ts:174-212 | a lost runtime with fewer than three recent attempts is replaced by the first candidate that matches |
| `Supervised.GivesUpAfterThree` | apps/privacy-service/src/supervised-runtime.ts:174-212 | after three candidates that do not match recovery ends and the supervisor is not ready |
| `Supervised.SupervisedPrivacyRuntime.NextAttempt` | apps/privacy-service/src/supervised-runtime.ts:182-185 | another attempt is made exactly if fewer than three are recent and nothing is stopping, after 250, 1,000 or 5,000 milliseconds |
| `Supervised.SupervisedPrivacyRuntime.TryCandidate` | apps/privacy-service/src/supervised-runtime.ts:186-211 | readiness is restored exactly if the candidate is the same model, ready, and gives the baseline |
| `Framing.HeaderReads` | apps/privacy-service/worker/inference.py:29-34 | the header is the length in four bytes, most significant first, and reading it gives the length back |
| `Framing.ReceiveDecides` | apps/privacy-service/src/onnx-worker.ts:188-232 | what a chunk does: it is kept, it resolves the outstanding job exactly on a finished frame of protocol 2 with the generation and job, or it fails the worker |
| `Framing.ResponseArrives` | apps/privacy-service/src/onnx-worker.ts:188-218 | however the bytes of the outstanding job's response are cut, the job resolves with exactly that frame |
| `Framing.EveryJobGetsItsFrame` | apps/privacy-service/src/onnx-worker.ts:293-329 | in a session of exchanges every job resolves with its own frame, in order |
| `Framing.OnlyMatchingResolves` | apps/privacy-service/src/onnx-worker.ts:203-214 | a step settles at most the pending job, and resolves it only on a frame with the protocol, generation and job |
| `Framing.NothingAfterFailure` | apps/privacy-service/src/onnx-worker.ts:220-232 | after the first failure nothing is settled any more, whatever arrives |
| `Framing.OnnxWorkerExecution.ReceiveChunk` | apps/privacy-service/src/onnx-worker.ts:188-218 | the in-place receive is the receive step |
| `Framing.OnnxWorkerExecution.DispatchJob` | apps/privacy-service/src/onnx-worker.ts:293-301 | a job is dispatched only on a ready worker with no other job outstanding |
| `Pairing.StepInv` | apps/desktop/src/personal-device-pairing-server.ts:502-790 | every step of the server keeps what the store acknowledged for an invitation (in memory, in the map, in every queued write and in the store) exactly if it is admissible for that invitation |
| `Pairing.DisciplineIsExact` | apps/desktop/src/personal-device-pairing-server.ts:1400-1493 | the invariant holds all along a run exactly if the run is disciplined |
| `Pairing.ApprovalIsDurable` | apps/desktop/src/personal-device-pairing-server.ts:1435-1493 | in every disciplined run (see above), once `approved: true` has been sent the store holds an approved entry with the same request after every later step, failed write, crash and restart, until forced expiry or `fail` |
| `Pairing.ClaimIsKept` | apps/desktop/src/personal-device-pairing-server.ts:1400-1434 | in every disciplined run, after a claim has returned the bound request and label never change, in memory and in the store, and the invitation is never cancelled |
| `Pairing.PromisesStand` | apps/desktop/src/personal-device-pairing-server.ts:549-595 | an open promise ends only by `fail`, by forced expiry, or by a restart after its stored deadline |
| `Pairing.CancelledAndClaimed` | apps/desktop/src/personal-device-pairing-server.ts:1537-1549 | in every disciplined run, an invitation sees a cancellation and a returned claim exactly if it is cancelled, then a restart finds its entry restorable among the first eight, and then a claim returns |
| `Pairing.CancelledClaimReturns` | apps/desktop/src/personal-device-pairing-server.ts:638-790 | after a restart a claim of a cancelled invitation returns exactly if its entry is among the first eight and its window is open |
| `Pairing.CancelledThenClaimed` | apps/desktop/src/personal-device-pairing-server.ts:1400-1423 | a disciplined run in which a cancelled invitation is revived by a restart and its claim returns |
| `Pairing.OnClaimInv` | apps/desktop/src/personal-device-pairing-server.ts:1400-1423 | a claim keeps the invariant exactly if it does not return early while a claim may still be taken back |
| `Pairing.SettledIsPledged` | apps/desktop/src/personal-device-pairing-server.ts:1409-1423 | on a live claimed invitation that is so exactly if the store has acknowledged the claim |
| `Pairing.EarlyReturnBinds` | apps/desktop/src/personal-device-pairing-server.ts:1409-1423 | a claim that returns during another one's write is kept exactly if that write is stored |
| `Pairing.EarlyReturnUnbinds` | apps/desktop/src/personal-device-pairing-server.ts:1409-1423 | from every state with a claim under way: the early return, a write that is not acknowledged, and another request in its place |
| `Pairing.OverlappingClaimsUnbind` | apps/desktop/src/personal-device-pairing-server.ts:1409-1423 | such a run from the start |
| `Pairing.EarlyApprovalBinds` | apps/desktop/src/personal-device-pairing-server.ts:1435-1493 | an approval that starts during a claim's write keeps the invariant exactly if that write is stored, and then it is as if the approval had waited; otherwise it stands without a claim |
| `Pairing.EarlyApprovalIsLost` | apps/desktop/src/personal-device-pairing-server.ts:1435-1493 | a run in which an approval overlaps an unacknowledged claim: it is stored and answered, the claim fails and is taken back, and the invitation's expiry deletes it |
| `Pairing.RestoresFirstEight` | apps/desktop/src/personal-device-pairing-server.ts:659-790 | a restart restores an entry exactly if it is among the first eight and its recovery window is open |
| `Pairing.RestartKeepsEntry` | apps/desktop/src/personal-device-pairing-server.ts:659-790 | an acknowledged claim whose window is open is still stored after a restart, with the same request, exactly if its entry is among the first eight or the restart wrote nothing; the promises about it stand either way |
| `Pairing.ApprovalLostBehindEight` | apps/desktop/src/personal-device-pairing-server.ts:524-541 | a disciplined run in which eight deletes fail and a restart loses the ninth, approved and answered invitation |
| `Pairing.WrittenInv` | apps/desktop/src/personal-device-pairing-server.ts:502-541 | the end of a write, stored or failed either way, keeps the invariant of its invitation |
| `Pairing.OnResumeInv` | apps/desktop/src/personal-device-pairing-server.ts:1133-1178 | so does every handler that continues after its write, including those that take a failed claim, approval or completion back |
| `Pairing.EventInv` | apps/desktop/src/personal-device-pairing-server.ts:885-1205 | every exchange, claim, approval, cancellation, failure, expiry and stop keeps it exactly if it is timely, also a completion on an invitation whose token is gone |
| `Pairing.RestartedInv` | apps/desktop/src/personal-device-pairing-server.ts:638-790 | a restart keeps it exactly if it does not lose an acknowledged claim behind eight other entries, whatever its own write does |
| `PairingOutcomes.CompleteCompletes` | apps/desktop/src/personal-device-pairing-server.ts:1114-1178 | `complete` on an approved invitation whose deadline is ahead: once written it is completed for ten more minutes, in memory and in the store; a failed write brings back the connecting state and the deadline |
| `PairingOutcomes.CompleteRefused` | apps/desktop/src/personal-device-pairing-server.ts:1114-1132 | without an approval, while one is being written, or past the deadline, `complete` changes nothing |
| `PairingOutcomes.CompletedReturns` | apps/desktop/src/personal-device-pairing-server.ts:638-790 | a completed pairing is completed again after a crash and a restart within ten minutes, if its entry is among the first eight |
| `PairingOutcomes.ClaimClaims` | apps/desktop/src/personal-device-pairing-server.ts:1400-1434 | a claim while a joiner waits binds the request for ten minutes, in memory and in the store, or leaves nothing bound |
| `PairingOutcomes.ClaimAnswers` | apps/desktop/src/personal-device-pairing-server.ts:1400-1413 | a claim of a claimed invitation returns at once; one of an invitation nobody waits for does nothing |
| `PairingOutcomes.ApproveApproves` | apps/desktop/src/personal-device-pairing-server.ts:1435-1493 | an approval of a claimed invitation is stored and answers the joiner who waits, or leaves it claimed as before |
| `PairingOutcomes.ApproveUnclaimed` | apps/desktop/src/personal-device-pairing-server.ts:1435-1493 | an approval of an unclaimed one writes the claim and then the approval, and each failure takes back only its own |
| `PairingOutcomes.SubmitBinds` | apps/desktop/src/personal-device-pairing-server.ts:987-1062 | the first request binds the invitation, and its joiner waits |
| `PairingOutcomes.SubmitRefused` | apps/desktop/src/personal-device-pairing-server.ts:987-1045 | any other request, and the same one while it waits, changes nothing |
| `PairingOutcomes.ResubmitAnswers` | apps/desktop/src/personal-device-pairing-server.ts:1008-1045 | the bound request again: an approved joiner is answered, a claimed one waits again |
| `PairingOutcomes.DisconnectFrees` | apps/desktop/src/personal-device-pairing-server.ts:941-975 | a joiner who leaves frees an unclaimed invitation and leaves a claimed one bound |
| `PairingOutcomes.ControlWrites` | apps/desktop/src/personal-device-pairing-server.ts:1063-1113 | `control` writes an approved invitation as it is and refuses any other |
| `PairingOutcomes.CancelCancels` | apps/desktop/src/personal-device-pairing-server.ts:1537-1549 | exactly an invitation neither claimed, approved nor completed can be cancelled; its entry is then deleted |
| `PairingOutcomes.FailCloses` | apps/desktop/src/personal-device-pairing-server.ts:1494-1498 | `fail` closes any open invitation, deletes its entry and withdraws what was promised |
| `PairingOutcomes.InvitationTimeEnds` | apps/desktop/src/personal-device-pairing-server.ts:547-595 | the end of the invitation's time closes it unless it is claimed; then only its authorization expires, in memory and in the store |
| `PairingOutcomes.RecoveryTimeEnds` | apps/desktop/src/personal-device-pairing-server.ts:597-618 | the end of the recovery window closes exactly a claimed invitation |
| `PairingOutcomes.StopKeepsClaimed` | apps/desktop/src/personal-device-pairing-server.ts:1563-1590 | stopping keeps claimed invitations and cancels the others |
| `PairingOutcomes.ClosedStays` | apps/desktop/src/personal-device-pairing-server.ts:547-567 | a closed invitation stays closed whatever is asked of it |
| `PairingOutcomes.CreateCreates` | apps/desktop/src/personal-device-pairing-server.ts:1297-1362 | an invitation is created exactly if fewer than eight are going on; those that are over are forgotten |
| `PairingOutcomes.PersistEnds` | apps/desktop/src/personal-device-pairing-server.ts:502-522 | the end of a write: what the map and the store hold, and in which order, stored or not |
| `PairingOutcomes.DeleteEnds` | apps/desktop/src/personal-device-pairing-server.ts:524-541 | the end of a delete: the entry is gone, or back at the end of the map |
| `PairingOutcomes.RestartRestores` | apps/desktop/src/personal-device-pairing-server.ts:659-790 | a restart brings each of the first eight open entries back as it was stored |
| `PairingOutcomes.RestartDrops` | apps/desktop/src/personal-device-pairing-server.ts:659-790 | and nothing else |
| `PairingOutcomes.PairingSucceeds` | apps/desktop/src/personal-device-pairing-server.ts:987-1493 | a disciplined run from the start in which a pairing is asked for, claimed, approved, answered, completed and stored |
| `Embedding.SplitTextByEmbeddingTokens` | apps/embedding-service/src/runtime.ts:112-170 | a text becomes one chunk, or the non-blank slices of its pieces, numbered |
| `Embedding.ChunksOfText` | apps/embedding-service/src/runtime.ts:112-170 | the chunks of a text are numbered from 0; a long text is cut at every multiple of the chunk size, and every stretch that is not blank becomes a chunk, in order |
| `Embedding.ChunkTokensAre` | apps/embedding-service/src/runtime.ts:117-124 | a chunk is as long as the configuration, the context and a batch allow |
| `Embedding.NoChunkLost` | apps/embedding-service/src/runtime.ts:204-218 | the chunks of every text are among the chunks embedded |
| `Embedding.ChunksInOrder` | apps/embedding-service/src/runtime.ts:204-218 | and these are the chunks of the texts one after another |
| `Embedding.SlicesJoin` | apps/embedding-service/src/runtime.ts:139-146 | the slices lose no piece, keep their order, and none is empty or too long |
| `Embedding.EmbeddingGroups` | apps/embedding-service/src/runtime.ts:172-202 | the loop computes the grouping that takes as many chunks as fit each time |
| `Embedding.GroupsAreBest` | apps/embedding-service/src/runtime.ts:172-202 | the groups join to the chunks, each fits the limit or is one chunk, and no such grouping has fewer |
| `Embedding.EveryBatchFits` | apps/embedding-service/src/runtime.ts:112-133 | on the `embedText` path every group fits the limit, so the single-chunk fallback is never taken |
| `Embedding.BatchesRespectTheModel` | apps/embedding-service/src/runtime.ts:172-202 | every batch of `embedText` with the headroom stays within `nBatch` and `nUbatch`, if these are larger than the headroom |
| `Embedding.LimitIs` | apps/embedding-service/src/runtime.ts:56-62 | a full batch with the headroom just fits what the model takes at once, and without room for that the limit is one |
| `Embedding.ScheduledEmbeddings` | apps/embedding-service/src/runtime.ts:315-351 | the vectors are the answers of the batches in order, and it fails exactly if some batch returns another number of vectors |
| `Embedding.VectorOfChunk` | apps/embedding-service/src/runtime.ts:315-351 | whatever the model computes, vector i is the one that the batch of chunk i gives in the place of chunk i |
| `Embedding.EmbedText` | apps/embedding-service/src/runtime.ts:204-241 | the answer pairs the chunks of all texts with those vectors; it fails exactly if a count is wrong or the first vector's size is not the expected one |
| `Embedding.FaithfulAnswer` | apps/embedding-service/src/runtime.ts:204-241 | with a model that answers each text by itself every chunk gets its own vector, and only the first vector's size can be refused |
| `Timeline.GroupConversationEvents` | apps/desktop/src/desktop-conversation.ts:247-289 | the rows flatten back to the events, are well formed, and no two neighbouring rows are both tools |
| `Timeline.GroupsAreMaximal` | apps/desktop/src/desktop-conversation.ts:252-272 | each tool group is a whole run of at least two tool events, named after its first and last |
| `Timeline.OwnerAt` | apps/desktop/src/desktop-conversation.ts:107-112 | the earlier group of an event is the last tool row that holds it |
| `Timeline.StabilizeConversationTimelineItems` | apps/desktop/src/desktop-conversation.ts:101-149 | keys stay distinct, the map is exactly the rows, only keys differ from the items, existing keys are kept, and a new group takes over the key of the first earlier group of its events, in their order, whose key no item and no row above has; every other new item has its own |
| `Timeline.Renders` | apps/desktop/src/desktop-conversation.ts:101-149 | all of this over any sequence of renders with distinct item ids |
| `Conversation.GroupedIdsDistinct` | apps/desktop/src/desktop-conversation.ts:247-289 | rows of distinct events have distinct ids exactly if no two maximal tool runs join to the same id and no event outside every run has the id of one |
| `Conversation.ExpandedAre` | apps/desktop/src/desktop-conversation.ts:27-61 | what stored events are shown as, one after another: nothing for approvals, an event without a transcript as it is, and one with a transcript as its segments unless some event is a message of its own |
| `Conversation.ShownExactly` | apps/desktop/src/renderer/v1/conversation/ConversationSurface.tsx:52-71 | of these exactly the events that the surface keeps are shown, in their order |
| `Conversation.DecimalSpells` | apps/desktop/src/desktop-conversation.ts:46-48 | the numbers in expanded ids are written in decimal |
| `Conversation.ShownEventsDistinct` | apps/desktop/src/desktop-conversation.ts:27-61 | expanding and filtering distinct stored events gives distinct events whose ids are UUIDs, expanded ids or the placeholder of a pending response |
| `Conversation.ShapedNeverClash` | apps/desktop/src/desktop-conversation.ts:262-268 | distinct events with ids of these shapes never clash |
| `Conversation.ShownRowsDistinct` | apps/desktop/src/desktop-conversation.ts:247-289 | the rows of what a conversation shows always have distinct ids |
| `Conversation.RenderConversation` | apps/desktop/src/renderer/v1/conversation/ConversationSurface.tsx:52-71 | one render, from stored events to stable rows: grouped as above, with distinct ids and keys, following the render before |
| `Conversation.ExpansionLeadsBack` | apps/desktop/src/desktop-conversation.ts:20-25 | an expanded event leads back to the stored event it came from, and a stored one to none |

## Left out

- Rounding of doubles, non-finite logits in the decoder, and the parsing of the Viterbi calibration: scores are reals.
- The regular expressions of `secrets.ts`: detections are any list of non-empty ranges on character boundaries.
- The format of ids and tokens, JSON, HTTP routing, authentication, encryption and signatures; a pairing operation arrives decrypted and validated.
- Abort signals inside `classifyPrepared`, and progress callbacks.
- FieldClassification.ClassifyRequestFields: results are held in a sequence instead of the `completed` array or the `consume` callback.
- Admission.AdmittedIsServed: inferences outside a request, such as the parity check before readiness, are not part of the runs, and the counters of `server.ts` and `runtime.ts` are values rather than closures.
- Message ids and the exchange limit of pairing: checks and updates straddle awaits, so no at-most-once claim is made.
- When recovery and invitation timers fire: they are events that may come at any time; only a restart compares stored deadlines with the clock.
- Liveness of pairing and recovery: a failed claim write during a disconnect can leave a request bound with nobody waiting, and a failure between readiness and the end of a recovery starts no new one.
- Pairing is a step relation on values, not a class: the records that handlers share by reference are looked up by id, which is the same because an id is never created twice.
- RuntimeManager.SlotsAreDisposedOnce: calibration, idle unloading, provider choice and the shutdown of the manager.
- Conversation.RenderConversation: which events are visible is any predicate, and the ids of optimistic prompts and live outputs count as UUIDs.
- Timeline.StabilizeConversationTimelineItems: rows are values, so the reuse of an equal previous result array is not visible.
- `compareConversationEvents` and `mergeConversationEvents`: with equal time and sequence the comparator is not an order.
- Model execution, tokenizers, process spawning, hashing, the embedding scheduler, and all views, configuration and logging.
