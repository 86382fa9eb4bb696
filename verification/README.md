# Persona generation and copy scoring, modelled in Dafny

The system builds course-audience personas with a language model and then
asks each persona to judge a piece of marketing copy.

- **Persona generation** (`mcp_persona.py`):
  - Survey text (CSV) or interview text (Markdown) becomes a prompt.
  - The model's streamed messages are scanned for ```` ```json ```` blocks, and the decoded objects become personas.
  - A rate-limited call is tried up to five times, sleeping as long as the error suggests.
  - `clean_persona` drops empty and placeholder (`'...'`) fields.
  - `_save_personas` keeps the personas that still have two or more fields and prefixes their ids with the namespace (`csv_`, `csv2_`, `md_`).
  - Survey text over 200000 characters is refused.
  - The large-file variants cut the text into fixed-size chunks and run generation per chunk. A failed chunk is skipped. The collected personas are tagged `Batch i/n`.
- **Scoring** (`mcp_feedback.py`):
  - Personas are taken two at a time.
  - Each persona gets a prompt carrying its description and the copy.
  - The scoring call is tried up to three times, waiting for the `retry_delay { seconds: N }` the error names plus one second, or 17 seconds.
  - The answer's outermost `{...}` is decoded into a feedback record.
  - A failed persona gets a failure record with score 0.
  - The run reports all records and the average of the positive scores.

The model is split into these modules:

- `Common`: JSON values, strings, `dict.get`, `str.strip`, slicing into batches.
- `Scanners`: the regular expressions, written out as scanners.
- `PersonaCleaning`, `PersonaPrompt`, `PersonaGeneration`, `PersonaSaving`, `PersonaPipeline`: the persona generator.
- `FeedbackPrompting`, `FeedbackCall`, `FeedbackParsing`, `FeedbackRun`: the scoring client.

How the outside world is represented:

- **Language model.** A service function `(call index, prompt) -> answer or exception`. Each attempt is one call index, so retries see fresh answers.
- **`json.loads`.** A decoder function.
- **Sleeps.** A returned sequence of pauses. `Backoff` marks a retry wait; `Pacing` marks a fixed gap between requests or batches.
- **Loops.** Every loop of the source is a method with a `while` or `for` loop. Each is proved equal to a recursive specification function, and the properties are proved about that function.

## Model

| member | source | states |
|---|---|---|
| Common.Get | mcp_feedback.py:84 | `d.get(k, default)`: the stored value when the key is present, the default otherwise |
| Common.NatToString | mcp_persona.py:160 | the decimal rendering of a count is a non-empty string of digits |
| Common.DigitsValueOfNatToString | mcp_persona.py:299 | `int(str(n)) == n`: reading back the digits of a rendered number gives the number |
| Common.Strip | mcp_feedback.py:157 | `str.strip()` returns a slice of the text that neither starts nor ends with whitespace, with only whitespace before and after it in the text |
| Common.StripEmpty | mcp_feedback.py:163 | `not text.strip()` holds exactly when the text is all whitespace |
| Common.Slices | mcp_feedback.py:27-30 | slicing with step n gives non-empty pieces of at most n items, all but the last exactly n |
| Common.SlicesFlatten | mcp_persona.py:139-141 | the slices, concatenated in order, give back the original sequence |
| Common.SlicesCount | mcp_persona.py:140 | the number of slices is the ceiling of length / n |
| Scanners.BlocksLazy | mcp_persona.py:268 | the non-greedy `(.*?)`: no extracted block contains a closing fence |
| Scanners.BlocksOfFenced | mcp_persona.py:268 | for text made of prose and fenced bodies, `findall` returns exactly the bodies, in order |
| Scanners.NoBlocksInProse | mcp_persona.py:268 | text without a backtick yields no block |
| Scanners.RetryDelayHint | mcp_persona.py:293-297 | a delay hint is found only where the text mentions `retryDelay` |
| Scanners.HintOfPayload | mcp_persona.py:293 | the first `'retryDelay': 'Ns'` in an error message is read as N |
| Scanners.SearchOfPayload | mcp_persona.py:293-295 | each of the single- and double-quoted patterns reads back the first payload quoted its own way as N |
| Scanners.NoApostropheNoMatch | mcp_persona.py:293 | the single-quoted pattern never matches text without an apostrophe |
| Scanners.DoubleQuotedHintOfPayload | mcp_persona.py:293-297 | `"retryDelay": "Ns"` in an error text without apostrophes falls through the first pattern and is read as N by the second |
| Scanners.SearchSeconds | mcp_feedback.py:138 | a `retry_delay { seconds: N }` match is reported only where the text contains `retry_delay` |
| Scanners.SecondsOfPayload | mcp_feedback.py:138 | the first `retry_delay {\n  seconds: N\n}` in an error message is read as N |
| Scanners.SkipDigits | mcp_feedback.py:138 | `\d+` stops at the first non-digit and consumes only digits |
| Scanners.SkipSpaces | mcp_feedback.py:138 | `\s*` stops at the first non-space and consumes only spaces |
| Scanners.BraceSpan | mcp_feedback.py:149 | the greedy `\{.*\}` spans from the first `{` to the last `}` after it, and fails exactly when no `{` precedes a `}` |
| Scanners.BraceSpanOfWrapped | mcp_feedback.py:149 | an object wrapped in brace-free text is matched whole |
| PersonaCleaning.KeepFields | mcp_persona.py:22 | a key is kept exactly when its value is truthy and not `'...'`, with its value unchanged |
| PersonaCleaning.KeepFieldsTwice | mcp_persona.py:22 | the field filter is idempotent |
| PersonaCleaning.CleanResources | mcp_persona.py:24-28 | succeeds exactly when every resource is a dict; never adds a resource and keeps no empty one |
| PersonaCleaning.CleanResourcesAppend | mcp_persona.py:24-28 | the resource comprehension works element by element: cleaning a concatenation is cleaning each part |
| PersonaCleaning.CleanResourcesOne | mcp_persona.py:25-27 | a resource survives, filtered, exactly when one of its values is kept |
| PersonaCleaning.CleanResourcesNotObject | mcp_persona.py:27 | a resource that is not a dict raises the `has no attribute 'values'` error |
| PersonaCleaning.CleanResourcesTwice | mcp_persona.py:24-28 | cleaning the cleaned resources again changes nothing |
| PersonaCleaning.CleanPersona | mcp_persona.py:21-29 | fails exactly for a non-dict persona or a kept resources field holding a non-dict; otherwise keeps exactly the kept keys, other values unchanged, resources cleaned |
| PersonaCleaning.CleanPersonaTwice | mcp_persona.py:21-29 | a second cleaning only drops a resources list that the first one emptied; otherwise the result is unchanged |
| PersonaPrompt.HeadDeterminesKind | mcp_persona.py:88 | survey and interview heads differ |
| PersonaPrompt.GeneratePromptInjective | mcp_persona.py:86-118 | equal prompts come from the same material and the same kind |
| PersonaPrompt.SurveyInterviewDiffer | mcp_persona.py:86-118 | for the same material, the survey and interview prompts have the same length and agree everywhere except the two characters naming the kind, 問卷 against 訪談 |
| PersonaGeneration.Contribution | mcp_persona.py:270-277 | a decoded dict adds itself, a decoded list adds its items, anything else (including a decode error) adds nothing |
| PersonaGeneration.FromBlocksAppend | mcp_persona.py:269-277 | the personas of concatenated blocks are the personas of each, in order |
| PersonaGeneration.FromMessagesAppend | mcp_persona.py:259-277 | the personas of concatenated message streams are the personas of each, in order |
| PersonaGeneration.FromBlocksSnoc | mcp_persona.py:269-277 | one more block appends exactly its contribution |
| PersonaGeneration.FromMessagesSnoc | mcp_persona.py:259-277 | one more message appends the personas of its json blocks |
| PersonaGeneration.SkipUndecodable | mcp_persona.py:276-277 | a block that does not decode is skipped without affecting the others |
| PersonaGeneration.ExtractFenced | mcp_persona.py:259-277 | a message of prose and fenced bodies yields the personas decoded from the bodies |
| PersonaGeneration.AppendRecords | mcp_persona.py:269-277 | the block loop appends the personas of the blocks to what was collected before |
| PersonaGeneration.ExtractPersonas | mcp_persona.py:256-277 | the streaming loop collects exactly the personas of all messages in order |
| PersonaGeneration.RateLimitWait | mcp_persona.py:293-299 | the wait is the hinted delay plus one second when one of the `retryDelay` patterns matches, and 50 seconds when none does (in particular without a `retryDelay` mention) |
| PersonaGeneration.RateLimitPolicyOfPayload | mcp_persona.py:286-299 | a rate-limit error carrying `'retryDelay': 'Ns'` is retried after N + 1 seconds; any other error is not retried |
| PersonaGeneration.RateLimitPolicyDefault | mcp_persona.py:299 | a rate-limit error without a hint is retried after 50 seconds |
| PersonaGeneration.RetryStep | mcp_persona.py:282-303 | a retried failure backs off as the policy says and then starts over one call later |
| PersonaGeneration.PrependTwice | mcp_persona.py:302 | backoffs accumulate in order |
| PersonaGeneration.RetryLoop | mcp_persona.py:247-307 | the `while True` loop with its retry counter returns what the retry specification gives for the policy, with the personas extracted from the answer |
| PersonaGeneration.GeneratePersonas | mcp_persona.py:245-307 | `_generate_personas` returns what the retry specification gives under the rate-limit policy, with the personas extracted from the answer |
| PersonaGeneration.RetryBounds | mcp_persona.py:247-290 | between one and five calls are made, with one backoff between consecutive calls |
| PersonaGeneration.RetryPause | mcp_persona.py:299-302 | the i-th backoff follows a retried failure of call i and lasts what the policy said for it |
| PersonaGeneration.RetryOutcome | mcp_persona.py:280-307 | the result is the last call's answer or its exception; a retryable exception ends the loop only at the fifth call |
| PersonaGeneration.OtherErrorsRaise | mcp_persona.py:304-307 | an error that is not a rate limit is raised at once, without sleeping |
| PersonaGeneration.PersistentFailure | mcp_persona.py:286-290 | when every call is rate-limited, five calls and four backoffs are made and the fifth error is raised |
| PersonaSaving.PrefixedIsString | mcp_persona.py:327 | only a string id can render with the namespace prefix |
| PersonaSaving.NormalizeId | mcp_persona.py:325-328 | the id becomes a string with the prefix; an id already prefixed is kept, a missing one becomes `<prefix>unknown`, others are prefixed; no other field changes |
| PersonaSaving.NormalizeIdTwice | mcp_persona.py:325-328 | prefixing ids is idempotent |
| PersonaSaving.NormalizeIdSize | mcp_persona.py:325-328 | prefixing never removes a field |
| PersonaSaving.Survivors | mcp_persona.py:316 | the comprehension raises exactly when some persona cannot be cleaned; survivors have two or more fields and are no more than the input |
| PersonaSaving.SurvivorsAppend | mcp_persona.py:316 | the comprehension filters each persona on its own |
| PersonaSaving.SurvivorsOne | mcp_persona.py:316 | a single persona survives cleaned exactly when cleaning keeps more than one field |
| PersonaSaving.NormalizeAll | mcp_persona.py:324-328 | every survivor gets its id normalised, in order |
| PersonaSaving.NormalizeAllTwice | mcp_persona.py:324-328 | normalising all ids twice is the same as once |
| PersonaSaving.PrefixIds | mcp_persona.py:324-328 | the id loop rewrites the survivors' ids in place as `NormalizeAll` says |
| PersonaSaving.SavePersonas | mcp_persona.py:309-358 | `_save_personas` returns the empty result or the normalised survivors, as its specification says |
| PersonaSaving.SavedShape | mcp_persona.py:316-358 | the empty result comes exactly when no persona survives; otherwise one record per survivor, each with a prefixed string id and the survivor's other fields |
| PersonaPipeline.GenerationBounded | mcp_persona.py:245-307 | one generation under the rate-limit policy makes one to five service calls and no pacing sleep |
| PersonaPipeline.RetryNoPacing | mcp_persona.py:302 | the sleeps inside generation are all backoffs |
| PersonaPipeline.GenerateAndSave | mcp_persona.py:43-45 | generation under the rate-limit policy runs; its errors propagate unchanged, and otherwise the personas are saved under the namespace |
| PersonaPipeline.TooLarge | mcp_persona.py:37-38 | the half-length token estimate exceeds 100000 exactly when the text is longer than 200000 characters |
| PersonaPipeline.ProcessCsv | mcp_persona.py:31-62 | `process_csv`/`process_csv2` behave as the CSV specification with the survey prompt and the rate-limit policy |
| PersonaPipeline.CsvSizeCeiling | mcp_persona.py:37-45 | over 200000 characters nothing is called and the size error is raised; otherwise one to five calls are made |
| PersonaPipeline.CsvIdsPrefixed | mcp_persona.py:43-45 | every saved CSV persona has two or more fields and a string id with the namespace prefix |
| PersonaPipeline.Join | mcp_persona.py:76 | joining nothing is empty, joining one part is that part, and the result starts with the first part |
| PersonaPipeline.JoinLength | mcp_persona.py:76 | the joined text is as long as the parts plus one separator between each two |
| PersonaPipeline.ProcessMd | mcp_persona.py:64-84 | `process_md` joins the documents and generates from the interview prompt under the rate-limit policy, with no size ceiling |
| PersonaPipeline.MdNoCeiling | mcp_persona.py:76-84 | whatever the size of the documents, one to five calls are made |
| PersonaPipeline.DefaultChunks | mcp_persona.py:121-141 | with the default batch size of 15000, the text is sent as ceil(length / 15000) chunks of at most 15000 characters that together give back the text |
| PersonaPipeline.SlicesFrom | mcp_persona.py:140-141 | each chunk is `text[i:i + batch_size]`, the last one cut at the end of the text |
| PersonaPipeline.SplitText | mcp_persona.py:139-141 | the chunking loop produces exactly the slices of the text |
| PersonaPipeline.TagShape | mcp_persona.py:159-160 | tagging succeeds exactly when every persona is a dict, and then sets `batch_info` on each, in order |
| PersonaPipeline.TagAll | mcp_persona.py:159-160 | the tagging loop computes the tagging specification |
| PersonaPipeline.CollectChunk | mcp_persona.py:154-175 | a successful chunk adds its tagged personas and, unless it is last, a 5-second pause; a failing chunk adds nothing |
| PersonaPipeline.RunChunk | mcp_persona.py:148-175 | one turn of the chunk loop generates from the chunk's survey prompt under the rate-limit policy and collects the result |
| PersonaPipeline.CollectChunks | mcp_persona.py:145-175 | the chunk loop computes the chunk-run specification with the survey prompt and the rate-limit policy |
| PersonaPipeline.ProcessLargeCsv | mcp_persona.py:125-182 | `process_large_csv`/`process_large_csv2` behave as the large-CSV specification with the survey prompt and the rate-limit policy |
| PersonaPipeline.PacingCollect | mcp_persona.py:168-171 | a chunk adds one pacing sleep exactly when it succeeds and is not the last |
| PersonaPipeline.PacingTotal | mcp_persona.py:168-171 | N chunks give at most N - 1 pacing sleeps |
| PersonaPipeline.RunCalls | mcp_persona.py:148-175 | k chunks make between k and 5k service calls |
| PersonaPipeline.RunTagged | mcp_persona.py:159-163 | every collected persona is a dict tagged `Batch i/n` by one of the chunks run |
| PersonaPipeline.LargeCsvCalls | mcp_persona.py:140-182 | text cut into N chunks costs N to 5N calls and at most N - 1 pacing sleeps |
| PersonaPipeline.LargeCsvDegenerate | mcp_persona.py:140-182 | a zero step raises the `range` error; empty text or a negative step collects nothing and raises the all-batches-failed error, with no call made |
| FeedbackPrompting.FeedbackPromptCarriesCopy | mcp_feedback.py:80-111 | the copy appears whole right after the persona's part, so different copies give different prompts |
| FeedbackCall.RetryDelaySeconds | mcp_feedback.py:135-144 | the wait is the named seconds plus one when the `retry_delay { seconds: N }` pattern matches, and 17 seconds when it does not (in particular without a `retry_delay` mention); it is never below one second |
| FeedbackCall.RetryDelayOfPayload | mcp_feedback.py:138-141 | an error carrying `retry_delay { seconds: N }` waits N + 1 seconds |
| FeedbackCall.CallStep | mcp_feedback.py:123-129 | a failure before the last attempt backs off by the delay rule and tries again one call later |
| FeedbackCall.CallGemini | mcp_feedback.py:114-133 | the retry loop returns what the call specification gives |
| FeedbackCall.CallBounds | mcp_feedback.py:116-133 | `None` comes back exactly when no attempt is allowed; otherwise one to `max_retries` calls are made, with one backoff between consecutive calls |
| FeedbackCall.CallPause | mcp_feedback.py:124-129 | the i-th sleep follows failed call i and lasts what the delay rule gives for its message |
| FeedbackCall.CallOutcome | mcp_feedback.py:117-132 | the result is the last call's text, or its exception re-raised after `max_retries` failures |
| FeedbackCall.CallNoPacing | mcp_feedback.py:129 | the call's sleeps are all backoffs |
| FeedbackParsing.ParseFeedback | mcp_feedback.py:146-176 | a parsed record carries the persona id and the stripped answer; with a `{...}` span, a decode error is re-raised, a decoded non-dict raises the missing-`get` error and a dict gives a record; without braces it raises the no-result error exactly for an error or blank answer |
| FeedbackParsing.ParseWrapped | mcp_feedback.py:149-158 | with an object wrapped in brace-free text: a decode error is raised; a non-dict raises the missing-`get` error; a dict gives its fields with the defaults |
| FeedbackParsing.ParsedScore | mcp_feedback.py:151-154 | a record read from a dict takes its `score`, `reasons_to_buy` and `reasons_not_to_buy`, with 5 and empty lists for the ones it lacks |
| FeedbackParsing.FallbackRecord | mcp_feedback.py:166-173 | an answer without braces that does not read as failure gets score 5 and the fallback reasons |
| FeedbackParsing.BlankAnswerRaises | mcp_feedback.py:162-164 | a blank answer raises the no-result error |
| FeedbackRun.EvaluatePersona | mcp_feedback.py:38-56 | the per-persona body returns the evaluation specification's step |
| FeedbackRun.EvaluationShape | mcp_feedback.py:38-56 | the call never gives `None`; the record carries the persona's id; one 3-second sleep, and no other pacing sleep, follows exactly the parsed answers; one to three calls are made; a failure record has score 0, the failure reasons and the `評估失敗: ` detail |
| FeedbackRun.ExhaustedRetriesRecorded | mcp_feedback.py:47-56 | if all three calls fail, the persona gets the failure record with the last error's text |
| FeedbackRun.JudgingWell | mcp_feedback.py:37-56 | the per-persona evaluation meets the properties the loops rely on, among them that its only pacing sleep is the 3-second one |
| FeedbackRun.EvaluateBatch | mcp_feedback.py:36-56 | the inner loop computes the batch specification |
| FeedbackRun.EvaluateAllShape | mcp_feedback.py:36-56 | a batch gives one record per persona with matching ids, one sleep per parsed answer, and one to three calls per persona |
| FeedbackRun.EvaluateAllPacings | mcp_feedback.py:46 | a batch's pacing sleeps are one 3-second sleep per parsed answer and no 20-second sleep |
| FeedbackRun.CompareMessage | mcp_feedback.py:60 | the comparison error reads `'>' not supported between instances of '...` |
| FeedbackRun.PositiveScores | mcp_feedback.py:60 | a failing comparison raises the `'>' not supported` error |
| FeedbackRun.PositiveScoresMeaning | mcp_feedback.py:60 | the comparison succeeds exactly when every score is comparable, and the kept scores are all positive |
| FeedbackRun.PositiveScoresOne | mcp_feedback.py:59-60 | one record's score is kept when it is positive, dropped when it is not, and its comparison error is raised when it is not a number; with `PositiveScoresAppend` this fixes the result for every list |
| FeedbackRun.AverageExample | mcp_feedback.py:59-72 | scores 8, 0 and 6 keep 8 and 6 and average 7 |
| FeedbackRun.PositiveScoresAppend | mcp_feedback.py:59-60 | `scores.extend` of successive batches keeps the positive scores of all records in order |
| FeedbackRun.SumBounds | mcp_feedback.py:72 | the sum of scores lies between n times the lowest and n times the highest |
| FeedbackRun.QuotientBounds | mcp_feedback.py:72 | dividing a total bounded by n·lo and n·hi by n lands in [lo, hi] |
| FeedbackRun.AverageBounds | mcp_feedback.py:69-72 | the average of non-empty scores lies between their bounds |
| FeedbackRun.AverageScore | mcp_feedback.py:69-72 | with `[0]` standing in for no scores, the average equals the average specification (0 for none) |
| FeedbackRun.RunStops | mcp_feedback.py:59-60 | once a batch raised, no later batch runs |
| FeedbackRun.ScoreBatch | mcp_feedback.py:32-66 | one outer-loop pass computes the stage specification |
| FeedbackRun.RunAll | mcp_feedback.py:32-66 | the outer loop computes the batch-run specification and stops at the first error |
| FeedbackRun.ScoreBatches | mcp_feedback.py:20-72 | batching, the loops and the average compute the run specification |
| FeedbackRun.RunMcpFeedback | mcp_feedback.py:20-74 | `run_mcp_feedback` is the run specification with the real prompt, the retry delay and `max_retries=3` |
| FeedbackRun.IdsMatchAppend | mcp_feedback.py:59 | records matching two persona lists, concatenated, match the concatenated lists |
| FeedbackRun.StageRecords | mcp_feedback.py:59 | a pass appends records that match the batch's personas one by one |
| FeedbackRun.StageScores | mcp_feedback.py:60 | a pass keeps exactly the positive scores of all records, or raises the comparison error |
| FeedbackRun.StagePacing | mcp_feedback.py:46-66 | a pass sleeps once per parsed answer plus once more unless it was the last batch |
| FeedbackRun.StagePacingKinds | mcp_feedback.py:46-66 | a pass adds one 3-second sleep per parsed answer and one 20-second sleep unless it was the last batch |
| FeedbackRun.StageCalls | mcp_feedback.py:37-40 | a pass makes one to three calls per persona of the batch |
| FeedbackRun.DoneStep | mcp_feedback.py:32 | the personas of the first k batches are those of the first k - 1 followed by batch k |
| FeedbackRun.RunRecords | mcp_feedback.py:32-59 | after k batches the records match the personas of those batches, in order |
| FeedbackRun.RunScores | mcp_feedback.py:59-60 | the kept scores are the positive scores of all records so far; an error is the comparison error |
| FeedbackRun.RunPacing | mcp_feedback.py:46-66 | the sleeps are one per parsed answer plus one between consecutive batches |
| FeedbackRun.RunPacingKinds | mcp_feedback.py:46-66 | the 3-second sleeps number the parsed answers and the 20-second sleeps the gaps between consecutive batches |
| FeedbackRun.RunCallBounds | mcp_feedback.py:32-46 | the batches run so far made one to three calls per persona |
| FeedbackRun.FeedbackRunShape | mcp_feedback.py:20-74 | a completed run gives one record per selected persona with its id, in order, averages its positive scores and makes one to three calls per persona; a failed run raised the comparison error |

## Left out

- File reading is not part of this model. That covers `open`, `chardet` encoding detection, `pandas` parsing and `to_string`. Each entry point receives the text `full_text` would hold, and `process_md` receives the decoded documents.
- Writing the output is not modelled: per-persona JSON files, the merged JSON, the zip archive, the conversation-log CSV and all `print`/log lines. `_save_personas` returns only the cleaned personas, or the empty result.
- The conversation messages `_generate_personas` collects feed only the log CSV, so they are dropped.
- `generate_chart`, `load_persona` and the web front end (`app.py`, `static/`) are not part of this model.
- The language model, the agent framework and `json.loads` are parameters: a service function indexed by call number and a decoder. Sleeps are returned as a sequence of pauses instead of being slept.
- Python dicts are maps, so key order is not modelled. JSON numbers are integers; floating-point scores are not modelled.
- The average is a `real`. Float rounding of `sum(scores) / len(scores)` is not modelled.
- `Common.Show` renders strings, numbers, booleans and `None` as Python does, but lists and dicts only in outline. So a prompt field holding a container, or an id that is a container, is rendered approximately.
- Exception texts that depend on library internals are approximated by fixed strings. That covers `json.loads` errors, the `range` error for a zero step and the `TypeError` texts.
- `\d` is approximated by the ASCII digits (`Common.IsDigit`). Python also matches other Unicode decimal digits in `str` patterns. `\s` and `str.strip()` use Python's full whitespace set (`Common.IsSpace`), so they are not approximated.
- `process_csv` and `process_csv2` differ only in the namespace, so they are one method, `PersonaPipeline.ProcessCsv`. `process_large_csv` and `process_large_csv2` are likewise `PersonaPipeline.ProcessLargeCsv`. Both methods require a CSV namespace.
- The entry points (`PersonaPipeline.GenerateAndSave`, `ProcessCsv`, `ProcessMd`, `RunChunk`, `CollectChunks`, `ProcessLargeCsv`) take no retry policy: they run `PersonaGeneration.GeneratePersonas`, which uses `PersonaGeneration.RateLimitPolicy`, and their contracts name that policy. The loop itself, `PersonaGeneration.RetryLoop`, and the specification functions take the policy, the prompt builder and the generator as parameters so that the lemmas hold for any of them.
- `FeedbackRun.RunMcpFeedback` runs the loops over the per-persona function `FeedbackRun.Evaluation`, not by calling the method `FeedbackRun.EvaluatePersona`. The two are proved equal by `EvaluatePersona`'s contract.
- The `parsed` count in the feedback model is bookkeeping. It counts the personas logged as "成功評估", each of which is followed by the 3-second sleep.
- `sync_call_gemini_model` has a `retry_delay` argument that the code never uses, so it is not modelled. `max_retries` is a parameter of `FeedbackCall.CallGemini`, and `run_mcp_feedback` uses the default 3. With `max_retries <= 0` the call returns `None` and parsing raises a `TypeError`, which the model records as a failure.
- A score that is not a number or a boolean makes `item.get('score', 0) > 0` raise outside the `try`, so the whole run fails. The model keeps this behaviour: `FeedbackRun.FeedbackRunShape` states it.
- `PersonaCleaning.CleanPersonaTwice` does not claim that `clean_persona` is idempotent, because it is not. A resources list that cleaning empties is kept as `[]`, and a second cleaning drops it as falsy. The lemma states exactly what the second pass changes.
