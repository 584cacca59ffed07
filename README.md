# Operate-style desktop agent: session core and model adapter

This project models, in Dafny, the two stateful parts of a desktop
automation agent that drives a local vision model (through Ollama) to
operate a computer:

- **The session core** (`controller/web/app.py`):
  - the action logger, an append-only list of entries with a running
    reward that moves only when an entry's success is known;
  - its summary figures;
  - the feedback rule that amends one entry and adds +10 or −5;
  - the SESSION_START and SESSION_STOP entries;
  - `run_agent`: a loop of at most ten iterations. Each iteration asks the
    model for a batch of operations and dispatches them in order. `done`
    ends the session (+20), an exception ends the loop (ERROR, −10), and
    an exhausted budget logs MAX_LOOPS (−5).
- **The model adapter** (`controller/models/apis.py`):
  - `clean_json`, which removes code fences and trims every line;
  - the reverse search for the last assistant message;
  - the replacement of the system message;
  - the protocol of one model call: append a user message that carries the
    screenshot, call the model, drop the image from that message, clean and
    parse the reply, append the assistant message, and on failure either
    stop (`ResponseError`) or retry.

Modules:

- `Wrappers`: the `Option` type.
- `Text`: the Python `str` operations the core relies on (`strip`,
  `splitlines`, `split("\n")`, `"\n".join`, `lower`).
- `Apis`, with lemmas in `ApisProofs`: the adapter.
- `App`, with lemmas in `AppProofs`: the session core.

The state that Python changes in place is kept in classes:

- `ActionLogger` has `actions` and `totalReward`.
- `History` holds the message list.
- `Executor` records every input action it is asked to perform.

Each imperative method is proved against a value-level specification
function:

- `Logged` and `Amended` for the logger.
- `AskModel` for the model call.
- `Dispatch`, `Iterate`, `RunFrom` and `RunAgentSpec` for the loop.

The properties the code promises are proved as lemmas about those functions.

External collaborators are parameters of the model:

- **The model call** is a script of attempt outcomes (`seq<Attempt>`),
  consumed one per attempt:
  - an exception before the message is appended;
  - `ResponseError`;
  - any other exception of the chat call;
  - a reply text.
- **`json.loads`** is a parser function from the cleaned text to an
  optional list of items. An item is either an operation record, with the
  `.get` defaults applied, or an element on which
  `.get("operation", "").lower()` raises.
- **The operating-system layer** is an `Executor` whose call number `k`
  raises exactly when `k` is in its set `faulty`.
- **Building the system prompt** is an `Option<string>`: `None` when it
  raises.
- **Reachability of the Ollama server** is a boolean.

`call_ollama_llava` retries by recursion, with no limit of its own, after an
unparsable reply or any exception other than `ResponseError`, whether
raised while taking the screenshot or by the chat call (`controller/models/apis.py:130-138`); `run_agent` itself
does not retry, its handler logs ERROR and leaves the loop
(`controller/web/app.py:306-313`). A finite attempt script bounds the
recursion: when the script runs out, the
model's run ends with the outcome `Stalled`, which has no counterpart in
Python.

Behaviour of the code that the model keeps as written:

- **`ResponseError`.** It does not reach the loop: `call_ollama_llava`
  prints a message and returns `None` (`controller/models/apis.py:123-128`).
  The loop logs an LLM_RESPONSE entry with no operations, then fails
  iterating `None` and logs ERROR (−10). `AskResponseErrorStops` and
  `Iterate` state this.
- **Images from failed attempts.** An exception of the chat call other
  than `ResponseError` retries before line 110 removes the image, so that
  user message keeps its image in the history for good
  (`AskChatFailureKeepsImage`). Only scripts without such failures leave
  no image behind (`AskNoStaleImages`).
- **Unknown tags.** An operation with an unknown tag is skipped silently,
  like a `click` whose `x` or `y` is falsy (`SkipHasNoEffect`).
- **Feedback index.** `submit_feedback` answers "Invalid action index" for
  `None` and for `index >= len`, while a negative index reaches entries
  from the end (see Findings).

## Model

| member | source | states |
|---|---|---|
| Text.TrimStart | controller/models/apis.py:182 | `lstrip` never lengthens the text |
| Text.TrimEnd | controller/models/apis.py:190 | `rstrip` never lengthens the text |
| Text.TrimStartSuffix | controller/models/apis.py:182 | the left-stripped text is a suffix of the input; everything removed is whitespace; it starts with a non-whitespace character |
| Text.TrimEndPrefix | controller/models/apis.py:190 | the right-stripped text is a prefix of the input; everything removed is whitespace; it ends with a non-whitespace character |
| Text.Strip | controller/models/apis.py:112 | `strip()` is no longer than its input and has no whitespace at either end |
| Text.TrimStartAllSpace | controller/models/apis.py:182 | `lstrip` of text made only of whitespace is empty |
| Text.TrimEndAllSpace | controller/models/apis.py:190 | `rstrip` of text made only of whitespace is empty |
| Text.TrimEndAppend | controller/models/apis.py:190 | right-stripping `a + b` with `a` ending in non-whitespace only strips `b` |
| Text.StripPadded | controller/models/apis.py:193 | `strip()` of a trimmed text between whitespace gives that text |
| Text.NoLineBreakConcat | controller/models/apis.py:193 | concatenating three texts without line boundaries adds none |
| Text.JoinLinesPrefix | controller/models/apis.py:193 | `"\n".join` of lines begins with the first line |
| Text.JoinLinesSuffix | controller/models/apis.py:193 | `"\n".join` of lines ends with the last line |
| Text.JoinLinesPrepend | controller/models/apis.py:193 | text put before the first line comes before the joined text |
| Text.JoinLinesAppendLast | controller/models/apis.py:193 | text put after the last line comes after the joined text |
| Text.StripIsInfix | controller/models/apis.py:193 | `strip()` is the infix of the input after its leading whitespace, with only whitespace on both sides |
| Text.StripOfTrimmed | controller/models/apis.py:193 | `strip()` leaves text already trimmed at both ends unchanged |
| Text.StripNoLineBreak | controller/models/apis.py:193 | stripping a line adds no line boundary |
| Text.TrimStartAppend | controller/models/apis.py:182 | left-stripping `a + b` with `b` starting in non-whitespace only strips `a` |
| Text.TrimEndOfWordEnd | controller/models/apis.py:190 | `rstrip` leaves text that ends in a non-whitespace character unchanged |
| Text.AllSpaceAroundBreak | controller/models/apis.py:193 | whitespace, a line break and whitespace are whitespace |
| Text.StripBeforeWord | controller/models/apis.py:187-190 | stripping `x + p`, for a trimmed non-empty `p` such as a fence, only left-strips `x` |
| Text.StripAfterTrimStart | controller/models/apis.py:182-190 | stripping after a left-strip is the same as stripping |
| Text.Lower | controller/web/app.py:241 | `lower()` keeps the length and lower-cases each character in place |
| Text.BreakIndex | controller/models/apis.py:193 | the first line boundary: none before it, and one at it unless it is the end |
| Text.SplitLines | controller/models/apis.py:193 | no line returned by `splitlines()` holds a line boundary |
| Text.NewlineIndex | controller/models/apis.py:193 | the first `'\n'`: none before it, and one at it unless it is the end |
| Text.SplitNewlines | controller/models/apis.py:193 | `split("\n")` returns at least one piece, none holding `'\n'` |
| Text.JoinLines | controller/models/apis.py:193 | `"\n".join(lines)`: the lines in order with one `'\n'` between neighbours; `JoinSplit`, `SplitJoin` and `JoinLinesBreaks` state its round trips and boundaries |
| Text.JoinLinesCons | controller/models/apis.py:193 | `"\n".join` of a first line and the rest puts one `'\n'` between them |
| Text.NewlineIndexOfJoin | controller/models/apis.py:193 | the first `'\n'` of `a + "\n" + b` is the separator when `a` has none |
| Text.NewlineIndexNone | controller/models/apis.py:193 | without a `'\n'` the index is the length |
| Text.JoinSplit | controller/models/apis.py:193 | `"\n".join(s.split("\n")) == s` |
| Text.SplitJoin | controller/models/apis.py:193 | `"\n".join(lines).split("\n") == lines` for lines without `'\n'` |
| Text.JoinLinesBreaks | controller/models/apis.py:193 | joining lines that have no boundary leaves `'\n'` as the only boundary |
| Text.BreakIndexIsNewline | controller/models/apis.py:193 | when `'\n'` is the only boundary, the first boundary is the first `'\n'` |
| Text.SplitLinesIsSplitNewlines | controller/models/apis.py:193 | on text whose only boundary is `'\n'` and that does not end in one, `splitlines()` is `split("\n")` |
| Text.SplitLinesNonEmpty | controller/models/apis.py:193 | non-empty text has at least one line |
| Apis.UserPrompt | controller/models/apis.py:90-93 | the prompt of the new user message: the first-message prompt when only the system message is in the history, the follow-up prompt otherwise; `AskPromptChoice` states it of every call |
| Apis.GetLastAssistantMessage | controller/models/apis.py:140-151 | the result is the assistant message with the highest index, and no later message is the assistant's; `None` exactly when no assistant message exists at an index above 0 |
| Apis.History.constructor | controller/web/app.py:208-209 | the history starts as the given messages |
| Apis.History.ConfirmSystemPrompt | controller/models/apis.py:160-164 | element 0 becomes a system message with the new prompt; the length and every other element stay the same; an empty history is left as it is, where Python raises `IndexError` |
| Apis.StripFences | controller/models/apis.py:179-190 | removes a leading "```json", or failing that a leading "```", then a trailing "```", stripping after each removal; `StripFencesShorter` bounds it and `CleanJsonOfJsonFenced`, `CleanJsonOfPlainFenced` give its result on fenced text |
| Apis.NormalizeLines | controller/models/apis.py:193 | every line of `splitlines()` stripped and joined by `'\n'`; `NormalizeLinesNormalized`, `NormalizeLinesOfNormalized` and `NormalizeLinesShorter` state its result shape, fixed points and bound |
| Apis.CleanJson | controller/models/apis.py:176-198 | `clean_json`: the fence removal, then the line normalization; `CleanJsonNormalized`, `CleanJsonFixedPoint` and the `CleanJsonOf…` lemmas state its properties |
| Apis.AskModel | controller/models/apis.py:36-138 | one call of `call_ollama_llava` on values, attempt by attempt: skip a failed setup, append the vision message, return `NoReply` on `ResponseError`, retry on another chat exception or an unparsable reply (image dropped for the latter), append the assistant message on success; `CallOllama` is proved equal to it, and `AskKeepsHistory`, `AskSuccessShape`, `AskNoStaleImages` and the other `Ask…` lemmas state its properties |
| Apis.StripEach | controller/models/apis.py:193 | one stripped line per line |
| Apis.CallOllama | controller/models/apis.py:36-138 | the in-place history, the reply and the unused attempts are exactly those of `AskModel`: it appends the vision message, drops its image, cleans and parses the reply, then appends the assistant message or retries |
| ApisProofs.StripFencesShorter | controller/models/apis.py:179-190 | fence removal never lengthens the text; it shortens text that starts or ends with "```"; it leaves other text unchanged |
| ApisProofs.StripEachCons | controller/models/apis.py:193 | stripping every line of `[x] + xs` strips `x` and then every line of `xs` |
| ApisProofs.StripEachAt | controller/models/apis.py:193 | line `i` of the result is line `i` of the input, stripped |
| ApisProofs.JoinStripShorter | controller/models/apis.py:193 | stripping every line never lengthens the joined text |
| ApisProofs.JoinSplitLinesShorter | controller/models/apis.py:193 | rejoining the lines never lengthens the text, and shortens text ending in a boundary |
| ApisProofs.NormalizeLinesShorter | controller/models/apis.py:193 | line normalization never lengthens the text, and shortens text ending in a boundary |
| ApisProofs.JoinTrimmedNormalized | controller/models/apis.py:193 | trimmed lines without boundaries, joined by `'\n'`, are normalized text |
| ApisProofs.NormalizeLinesNormalized | controller/models/apis.py:193 | line normalization always yields `'\n'` as the only boundary and every line trimmed |
| ApisProofs.CleanJsonNormalized | controller/models/apis.py:176-198 | every output of `clean_json` has only `'\n'` boundaries and no line with whitespace at an end |
| ApisProofs.NormalizeLinesOfNormalized | controller/models/apis.py:193 | normalized text not ending in `'\n'` is left unchanged by line normalization |
| ApisProofs.CleanJsonKeepsClean | controller/models/apis.py:176-198 | input with no fence at either end, already normalized and not ending in `'\n'` comes back unchanged |
| ApisProofs.CleanJsonFixedOnlyIfClean | controller/models/apis.py:176-198 | only such input comes back unchanged |
| ApisProofs.CleanJsonFixedPoint | controller/models/apis.py:176-198 | `clean_json(s) == s` if and only if `s` has no fence at either end, is normalized and does not end in `'\n'` |
| ApisProofs.CleanJsonOfJsonFenced | controller/models/apis.py:179-193 | a body wrapped in "```json" … "```" cleans to its stripped, line-normalized body |
| ApisProofs.PlainFenceIsNotJsonFence | controller/models/apis.py:179-183 | a plain-fenced body that does not start with "json" is not taken for a "```json" fence |
| ApisProofs.CleanJsonOfPlainFenced | controller/models/apis.py:183-193 | a body wrapped in "```" … "```" cleans to its stripped, line-normalized body, unless it starts with "json" |
| ApisProofs.NormalizePadded | controller/models/apis.py:189-193 | lines each padded with whitespace and joined by `'\n'` normalize to the unpadded lines joined by `'\n'` |
| ApisProofs.PadLines | controller/models/apis.py:189-193 | the padded lines have the lines' count, and each is its line between its leading and trailing whitespace |
| ApisProofs.InnerPadded | controller/models/apis.py:179-193 | after the first line's indentation and the last line's trailing whitespace are removed, the lines are still padded lines |
| ApisProofs.RestoreEnds | controller/models/apis.py:179-193 | putting the first line's indentation and the last line's trailing whitespace back onto the inner lines gives the padded lines |
| ApisProofs.JoinPaddedEnds | controller/models/apis.py:179-193 | the joined padded lines are the joined inner lines between the first indentation and the last trailing whitespace |
| ApisProofs.JoinInnerTrimmed | controller/models/apis.py:179-193 | joined lines that begin and end with a non-empty trimmed line are non-empty and trimmed |
| ApisProofs.PaddedJoinParts | controller/models/apis.py:179-193 | the join of padded lines is the first line's indentation, then a non-empty trimmed inner join, then the last line's trailing whitespace |
| ApisProofs.StripPaddedJoin | controller/models/apis.py:179-193 | `strip()` of padded lines joined by `'\n'` removes exactly the first line's indentation and the last line's trailing whitespace |
| ApisProofs.CleanJsonOfIndentedJson | controller/models/apis.py:179-193 | a "```json" fence whose first indented line follows it on the same line cleans to the lines without their indentation, joined by `'\n'` |
| ApisProofs.CleanJsonOfIndentedPlain | controller/models/apis.py:183-193 | the same for a plain "```" fence, unless the body starts with "json" |
| ApisProofs.StripOwnLines | controller/models/apis.py:179-193 | `strip()` of padded lines between two whitespace-only lines removes those lines, the first line's indentation and the last line's trailing whitespace |
| ApisProofs.SpaceFirstIsNotJson | controller/models/apis.py:183-185 | a body that starts with whitespace never starts with "json" |
| ApisProofs.CleanJsonOfOwnLineJson | controller/models/apis.py:179-193 | the usual reply shape, "```json" on a line of its own, the indented lines, then "```" on a line of its own (any whitespace around the line breaks), cleans to the lines without their indentation, joined by `'\n'` |
| ApisProofs.CleanJsonOfOwnLinePlain | controller/models/apis.py:183-193 | the same for a plain "```" fence on its own line, with no condition on the body |
| ApisProofs.AskKeepsHistory | controller/models/apis.py:100-138 | a call only appends to the history; the unused attempts are a suffix of the script; every attempt made consumes one; a call that runs out of attempts has none left |
| ApisProofs.AskFirstTry | controller/models/apis.py:95-121 | a reply that parses at once adds exactly two messages: the user prompt with the image dropped, then the assistant message with the cleaned content |
| ApisProofs.RepliedAtShift | controller/models/apis.py:130-138 | a retry's success at attempt `k` is the whole call's success at attempt `k + 1` |
| ApisProofs.AskSuccessShape | controller/models/apis.py:95-138 | whenever operations come back: the history ends with a user message without image followed by the assistant message holding the cleaned reply of some attempt; the operations are that reply's parse; the later attempts are unused |
| ApisProofs.AskAddsUserMessages | controller/models/apis.py:95-138 | every added message is the user's, except the last, which is the assistant's exactly when operations come back |
| ApisProofs.AskPromptChoice | controller/models/apis.py:46-100 | whenever a call adds a message, including after attempts whose setup failed, the first added message is the user's, with the first-message prompt exactly when the history had length 1 |
| ApisProofs.AskParseFailureRetries | controller/models/apis.py:110-119 | an unparsable reply leaves the user message without image and no assistant message, then retries |
| ApisProofs.AskResponseErrorStops | controller/models/apis.py:123-128 | `ResponseError` is not retried: the reply is `None`, and the user message still holds its image |
| ApisProofs.AskChatFailureKeepsImage | controller/models/apis.py:102-138 | any other exception of the chat call retries with the image-bearing user message left in the history for good |
| ApisProofs.AskNoStaleImages | controller/models/apis.py:95-138 | with no chat failure in the script, no added message keeps an image reference |
| App.Logged | controller/web/app.py:40-51 | `log_action` on values: the entry appended, the reward moved by its reward exactly when its success is known; `LogAction` is proved equal to it and `SettlesLogged`, `CountKindLogged` state its effect |
| App.CountOutcomeBound | controller/web/app.py:55-56 | successes plus failures never exceed the number of entries |
| App.ActionLogger.constructor | controller/web/app.py:36-38 | a new logger has no entries and reward 0 |
| App.ActionLogger.LogAction | controller/web/app.py:40-51 | exactly one entry with the given type, details, success and reward is appended, and earlier entries are unchanged; the reward grows by `reward` if `success` is not `None`, and is otherwise unchanged |
| App.ActionLogger.GetSummary | controller/web/app.py:53-63 | total is the number of entries; successful and failed count the entries with success true and false, and their sum is at most the total; the reward is the running reward; the rate is `successful / total * 100`, or 0 for an empty log, and always between 0 and 100 |
| App.FeedbackIndexAsWritten | controller/web/app.py:154-155 | the guard and list indexing of `submit_feedback` as written: `None` or `index >= len` is refused, a non-negative index addresses its entry, `-len <= index < 0` addresses entry `len + index`, and a lower index raises `IndexError`; `NegativeIndexAmendsFromEnd`, `IndexBelowRangeRaises` and `FeedbackIndexAgreement` state it |
| App.Amended | controller/web/app.py:157-166 | the feedback update on values: the addressed entry's success set to the verdict and its reward to +10 or −5, that reward added to the total; `SubmitFeedback` is proved equal to it and `FeedbackAmendsOne`, `FeedbackRepeated` state its effect |
| App.FeedbackIndex | controller/web/app.py:154 | an index is accepted exactly when it is present and `0 <= index < len(actions)`, and then addresses that position |
| App.SubmitFeedback | controller/web/app.py:154-177 | an accepted index sets that entry's success to the verdict and its reward to +10 or −5, and adds that reward to the total; any other index is refused with nothing changed |
| App.StartSession | controller/web/app.py:107-136 | an empty objective and an unreachable server are refused without an entry; otherwise exactly one SESSION_START entry with objective and model is appended and the reward is unchanged |
| App.StopSession | controller/web/app.py:189-199 | exactly one SESSION_STOP entry is appended and the reward is unchanged |
| App.Executor.constructor | controller/web/app.py:28 | a fresh executor has recorded no call |
| App.Executor.Perform | controller/web/app.py:259-291 | the call is recorded at the end of the trace, and it fails exactly when its call number is faulty |
| App.Classify | controller/web/app.py:241-289 | the tag switch: the lower-cased tag `done`, `press` or `write` selects that branch, `click` needs truthy `x` and `y`, and anything else is skipped; `SkipHasNoEffect` and `ActionEntryNotTerminal` state what the kinds do |
| App.Dispatch | controller/web/app.py:239-302 | the `for operation in operations` loop on values: a non-object raises, `done` logs DONE +20 and finishes, press/write/click call the executor and log a pending entry unless the call raises, others are skipped; `RunBatch` is proved equal to it and `DispatchLedger`, `DispatchCalls`, `DoneEndsBatch`, `DispatchSameTail` state its properties |
| App.Iterate | controller/web/app.py:215-304 | one try-body of the loop on values: ask the model, log LLM_RESPONSE (the operations, or `None` on `ResponseError`, which then raises), then dispatch; `RunIteration` is proved equal to it and `IterateLedger`, `IterateResponses`, `IterateFrame` state its properties |
| App.RunFrom | controller/web/app.py:214-319 | the `while loop_count < max_loops` loop on values: iterate, log ERROR −10 on an exception, stop on `done`, log MAX_LOOPS −5 at 10 iterations; `LoopStep` advances it and `RunFromLedger`, `RunFromLoops`, `RunFromResponses`, `RunFromFrame` state its properties |
| App.RunAgentSpec | controller/web/app.py:202-329 | `run_agent` on values: FATAL_ERROR −20 when the system prompt cannot be built, otherwise the loop from a history holding only the system message; `RunAgent` is proved equal to it and `RunLedger`, `RunLoops`, `RunTerminals`, `RunKeepsSystemMessage` state its properties |
| App.RunBatch | controller/web/app.py:239-302 | the logger and the executor end exactly as `Dispatch` says for the batch |
| App.RunIteration | controller/web/app.py:215-304 | logger, executor, history and attempts end exactly as `Iterate` says |
| App.LoopStep | controller/web/app.py:214-313 | one pass of the loop body (with the ERROR entry on an exception) advances `RunFrom` by one iteration or ends it with the returned outcome |
| App.RunAgent | controller/web/app.py:202-329 | the final log, reward, executor trace and outcome are those of `RunAgentSpec` |
| AppProofs.DispatchSameTail | controller/web/app.py:239 | a batch's behaviour depends only on the operations still to come |
| AppProofs.DoneEndsBatch | controller/web/app.py:244-255 | operations after a `done` are never dispatched (the batch cut after it behaves the same); the `done` logs DONE with success true and +20, and finishes the batch |
| AppProofs.SkipHasNoEffect | controller/web/app.py:241-302 | an unknown tag, or a `click` with falsy `x` or `y`, can be removed from the batch without changing the log or the calls |
| AppProofs.DispatchKeeps | controller/web/app.py:239-302 | a batch leaves history and attempts alone and only appends to the executor trace |
| AppProofs.DispatchCalls | controller/web/app.py:239-302 | the executor receives a prefix of the planned press, write and click calls, in order, and all of them when none raises |
| AppProofs.SettlesLogged | controller/web/app.py:40-51 | logging a pending entry (success unknown, not of a terminal type), or an outcome's terminal entry, settles the log by that outcome |
| AppProofs.SettlesTrans | controller/web/app.py:40-51 | a pending stretch followed by a settled stretch is settled |
| AppProofs.SettlesAfterPending | controller/web/app.py:260-296 | a pending entry in front of a settled stretch keeps it settled |
| AppProofs.ActionEntryNotTerminal | controller/web/app.py:257-302 | PRESS, WRITE and CLICK entries are not of a terminal type |
| AppProofs.DispatchLedger | controller/web/app.py:239-302 | a batch appends only pending entries and never moves the reward, except a final DONE (+20) when it ends in `done` |
| AppProofs.IterateLedger | controller/web/app.py:223-302 | an iteration appends an LLM_RESPONSE entry plus the batch's entries, settled as the batch is |
| AppProofs.RunFromLedger | controller/web/app.py:214-319 | the loop appends only pending entries except the last, which is DONE, ERROR or MAX_LOOPS; the reward moves by exactly +20, −10 or −5 by the outcome |
| AppProofs.RunLedger | controller/web/app.py:202-329 | a whole run only appends to the log; the one settled entry it adds is the last, the terminal entry of its outcome (DONE +20, MAX_LOOPS −5, ERROR −10, FATAL_ERROR −20); the reward moves by exactly that amount; every other added entry has unknown success and a non-terminal type |
| AppProofs.RunFromLoops | controller/web/app.py:211-319 | `loop_count` never decreases and never passes 10, and it reaches 10 exactly when MAX_LOOPS ends the run |
| AppProofs.RunLoops | controller/web/app.py:211-326 | a run ends with `loop_count <= 10`; MAX_LOOPS exactly at 10, so an ERROR or `done` ends below it; FATAL_ERROR exactly when the system prompt could not be built |
| AppProofs.ExtendsTrans | controller/web/app.py:214-304 | extending the state is transitive |
| AppProofs.IterateFrame | controller/web/app.py:223-302 | an iteration only appends to the trace and the history, and consumes attempts |
| AppProofs.RunFromFrame | controller/web/app.py:214-313 | the loop only appends to the trace and the history, consumes attempts, and stalls only on an empty script |
| AppProofs.RunKeepsSystemMessage | controller/web/app.py:207-313 | the history of a run still starts with its system message |
| AppProofs.CountKindLogged | controller/web/app.py:40-51 | logging an entry adds one to the count of its type only |
| AppProofs.TerminalKindInjective | controller/web/app.py:244-328 | DONE, MAX_LOOPS, ERROR and FATAL_ERROR are terminal types, one per outcome |
| AppProofs.CountKindAppend | controller/web/app.py:40-51 | the count of a type in two stretches of the log is the sum of their counts |
| AppProofs.CountKindPending | controller/web/app.py:40-51 | pending entries include no entry of a terminal type |
| AppProofs.SettlesCounts | controller/web/app.py:202-329 | a settled stretch adds one entry of an outcome's terminal type exactly when it ends with that outcome |
| AppProofs.RunTerminals | controller/web/app.py:202-329 | a run adds one entry of type DONE, MAX_LOOPS, ERROR or FATAL_ERROR exactly when its outcome is that one: a `done` run logs one DONE and no MAX_LOOPS, ERROR or FATAL_ERROR, and a stalled run none of them |
| AppProofs.DispatchResponses | controller/web/app.py:239-302 | a batch logs no LLM_RESPONSE |
| AppProofs.IterateResponses | controller/web/app.py:223-231 | an iteration logs exactly one LLM_RESPONSE unless the attempts ran out |
| AppProofs.RunFromResponses | controller/web/app.py:214-313 | the number of LLM_RESPONSE entries is the number of completed iterations, plus one when the run ends in `done` or an error |
| AppProofs.FeedbackAmendsOne | controller/web/app.py:154-166 | feedback changes only the addressed entry's success and reward (to +10 or −5) and adds that reward to the total |
| AppProofs.FeedbackRepeated | controller/web/app.py:154-166 | repeated feedback on one entry leaves the last verdict, and the total gains both rewards |
| AppProofs.NegativeIndexAmendsFromEnd | controller/web/app.py:154-155 | as written, index `-k` with `1 <= k <= len` passes the guard and amends entry `len - k`; the intended check refuses it |
| AppProofs.IndexBelowRangeRaises | controller/web/app.py:154-155 | as written, an index below `-len` passes the guard and then raises `IndexError` |
| AppProofs.FeedbackIndexAgreement | controller/web/app.py:154 | on a missing or non-negative index the code as written and the intended check agree |

## Left out

- Flask routes, request parsing and JSON replies. They are presentation; the replies become result values (`FeedbackReply`, `StartReply`).
- `socketio.emit` events and `render_template`. They are output only: no emit changes the log, the reward or the loop.
- Timestamps (`datetime.now`) in log entries, and the `time.time()` session id. Clocks are not modelled.
- `time.sleep` delays. They have no effect on state.
- The error text `str(e)` in ERROR and FATAL_ERROR details. Messages of foreign exceptions are not modelled; the details keep the loop number.
- Starting the Ollama server and checking it (`ollama.Client().list()`). The check is the boolean `ollamaReachable` of `StartSession`.
- Screen capture, the screenshots directory, YOLO labelling (switched off at `controller/models/apis.py:59`), base64 and image handling. These are foreign libraries; a failure in them is the attempt `SetupFails`.
- The chat call and `json.loads`. They are the attempt script and the parser function. JSON that is not a list is given by what `for operation in operations` (`controller/web/app.py:239`) does with it. A number, a boolean or `null` raises `TypeError` before any item, so it is given as `[NotRecord]`: LLM_RESPONSE, then ERROR (−10), with no executor call; for `null` Python records the operations in that LLM_RESPONSE as `None`, the model as `[NotRecord]`. An object or a string yields its keys or characters, on which `.get` raises, so it is given as one `NotRecord` per key or character (`[]` when empty).
- A reply without `message.content` fails after the image is dropped. It is given as a reply that does not parse, and the history ends the same.
- A `ResponseError` raised before the user message is appended. Only the chat call is taken to raise it.
- `get_next_action` (`controller/models/apis.py:26-33`). It only forwards to `call_ollama_llava`, which `CallOllama` models.
- The system and user prompt texts (the prompt module is not part of this model). They are the parameters `systemPrompt` and `Prompts`.
- `operating_system.press`, `write` and `mouse`. They are the `Executor`, which records each call and fails on given call numbers.
- The background task, concurrency and the global `current_session`. `run_agent` never reads the global.
- `config.py`. Its verbose flag is off, so every verbose branch (prints, `traceback`) is dead code.
- Exceptions raised by `log_action` or `emit` themselves inside the handlers. The FATAL_ERROR path is modelled only for a failing system prompt.
- App.Classify: `lower()` is modelled for ASCII letters only, so a tag such as "DONE" is recognised but non-ASCII case mappings are not.
- App.Classify: `x` and `y` are optional integers. Truthiness of other JSON values (strings, floats, lists) is not modelled.
- App.SubmitFeedback: the verdict is a boolean. Python tests the truthiness of any JSON value, and a non-integer index would raise `TypeError`.
- App.ActionLogger.GetSummary: the success rate is an exact real, not a float rounded by Python's division. The empty-log rate is `0.0` where Python returns the integer `0`.
- Apis.CallOllama: the unbounded retry is bounded by the finite attempt script. When the script runs out the model returns `OutOfAttempts`, and the loop ends with `Stalled`, which Python never reaches.
- Apis.CallOllama: each retry, after a setup exception (`controller/models/apis.py:47-54`, the attempt `SetupFails`), a chat exception or an unparsable reply, is a nested Python call. The model has no stack: past the interpreter's recursion limit, a `RecursionError` escapes the handler at `controller/models/apis.py:138` and reaches the handler of `run_agent`, which logs ERROR (−10); the model keeps retrying while attempts remain.
- Text.Lower: lower-cases ASCII letters only. Python's `lower()` also maps non-ASCII letters, sometimes to a different length ('İ' becomes two characters, the Kelvin sign becomes 'k', so "clic\u212A" is a click in Python and skipped here).
- Apis.History.ConfirmSystemPrompt: building the new system prompt is left out. The prompt is given as a parameter.

## Findings

| source | as written | input that shows it | evidently intended | confidence | as-written member | corrected member |
|---|---|---|---|---|---|---|
| controller/web/app.py:154-155 | the guard `action_index is not None and action_index < len(logger.actions)` has no lower bound, so Python's negative indexing applies | `action_index = -1` on a log of 3 entries amends entry 2 and returns "success"; `action_index = -4` raises `IndexError` (HTTP 500) instead of the "Invalid action index" reply | only `0 <= action_index < len(logger.actions)` addresses an entry; anything else is refused | not executed | App.FeedbackIndexAsWritten (with AppProofs.NegativeIndexAmendsFromEnd, AppProofs.IndexBelowRangeRaises) | App.FeedbackIndex (used by App.SubmitFeedback) |
