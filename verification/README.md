# Verified models of PawLia

PawLia is an assistant runtime. This project models the state machines and text
formats at its core in Dafny and proves what they keep over whole runs. Each module
names the source file it follows in its header comment; paths below are relative to
the repository. `dafny verify dfyconfig.toml` checks everything.

| part | modules |
|---|---|
| text and messages | Seqs, Texts, Messages, Errors |
| prompt repair and retries | Sanitizer, SanitizerLaws, SanitizedForm, Retry, RetryLaws |
| condensing and the fallback chain | Condense, CondenseLaws, Fallback, PromptTail, Strikes, Requests, Benches, Chain |
| tool-call loop | ToolLoop, LoopCourse, SkillLoop |
| speech output | TtsFrames, HoldLoop, TtsCourse, TtsPlain, TtsBuffer |
| utterance segmentation | Vad, Utterances, Endpointing, CallTiming, Segmenter |
| daily log | DayLog, DayLogSearch, DayLogLaws, DayLogRuns, DayLogMain, DayTitles |
| exchange log | ExchangeLog, ExchangeParts, ExchangeLaws, ExchangeRoundTrip, DayExchanges |
| streamed sentences | Sentences, SentenceForm, Thinking, Thoughts, CallMarkers, Streaming |
| calendar events | Calendar, Recurrence, RecurrenceLaws, FirstOccurrence, Weeks, EventStarts, EventNotices, NoticeLaws, UsualNotices |
| reminders | Reminders, ReminderLaws, ReminderLines, RecurrenceTexts, ReminderTexts, ReminderFiles, WrittenReminders |
| jobs | Jobs, JobLaws, JobFiles, JobRepeats, JobTimes |
| vector index | Chunker, ChunkLaws, VectorIndex, VectorBackend |

Loops and objects that the source updates in place are methods and classes here, each
proved against functions on values; the laws are lemmas about those functions. Model
replies, error categories, embeddings, signal analysis and the clock are parameters
that may take any value.

## Where the code and its promise differ

The model follows the code. Each item is stated and proved by the lemmas named.

- The digest header calls the dropped lines the oldest; the loop skips any line that
  does not fit and goes on, so an older short line can stay (`OldestDropped`,
  `OldestKept`).
- Condensing is said to keep the last pairs intact. It does if and only if they do not begin
  with a tool result and no tool result among them is cut at 800 characters
  (`IntactExactly`). The levels are said to be halved down to none; they are cut to three
  quarters and end with two pairs, then one (`LadderDescends`).
- Compaction is said to keep the first exchange and the last four; it keeps the first
  message and the last four messages, and leaves a tool result without its call exactly
  when the fourth message from the end is one (`CompactValid`). The result that is put in
  for a failed use of a tool has no call to answer either (`SyntheticValid`).
- A cap shorter than one frame switches the cap off (`CapDisabled`, `Unbounded`).
- A main entry appended to a daily log that begins with a thread section is put behind
  that section and read back with a line break before it (`AppendExactly`,
  `MainBehind`).
- An exchange with an empty answer and no tool call, followed by another one, swallows
  the head of the next entry when read back: `\s*` takes the line break that delimits
  it (`RoundTrip`, `Swallowed`).
- The comment in the stream loop says that only sentences complete before a bracket
  marker are spoken. The loop splits the whole text up to the end of the chunk that
  completes the marker, so this holds if and only if no sentence ends from the start of
  the marker on in what has come by then, or the cleaner leaves nothing of those that do
  (`OnlyBefore`); one chunk is enough to have the marker read out (`MarkerSpoken`,
  `MarkerExists`).
- The search for the next occurrence looks seven days, one month or one year ahead. For
  a rule without UNTIL it is right if and only if the first moment that the rule allows
  from now, and from the start of the event, does not lie in the window beyond that
  (`RightExactly`, which says it for all rules). So it
  misses a monthly or yearly rule whose day some months or years lack (`MonthlyMiss`), and
  every event that begins later than the search looks (`NotBegun`, `WeeklyMiss`); a
  reminder of 14 days sets such a window.
- UNTIL counts up to the end of its day, although section 3.3.10 of RFC 5545 lets a time of
  day in it end the rule earlier. An event is found after its rule has ended if and only
  if this time lies before that of the event, on a day that the rule allows and that is
  not before its first (`UntilExactly`, `KeptExactly`; `LateOnLastDay` is such an event).
- A reminder so many minutes before its event that a date leaves the calendar of datetime
  ends the check of all events with an exception, and so does a rule whose search names a
  day after year 9999: what is listed behind is not looked at. A check gets through
  exactly when no entry does this (`ThroughExactly`); behind a reminder that is further
  off than the whole calendar nothing is ever announced (`Silenced`).
- The quarter of an hour after the start in which a late reminder may still be sent never
  applies to a recurring event, whose start is never before now (`ReminderAnnounced`,
  `StartAhead`).
- A job whose time of day does not exist stops the poll on its day, and one whose interval
  reaches past year 9999 from its last run stops every poll (`FailsExactly`). What ran
  before it in that poll is only remembered when a forced job saved the file in between
  (`SavedExactly`), so a target is served twice, exactly under the condition of
  `ServedAgain` (`NineTwice`, `NineTwiceByInterval`). Where only times of day fail, polling
  alone serves a target of a job twice, in whatever run, if and only if one poll of the
  file as it stands would run the job and stop behind it (`TwiceExactly`).
- Blank lines between paragraphs are not counted against the chunk size, so three
  paragraphs can make a chunk of more than 800 characters (`LongChunk` says exactly when,
  `OverlongChunk`, `OverlongLetters`).
- Vectors of another length than those of the other documents leave the parallel lists out
  of step, and indexing another known document then fails; an embedding service that
  returns no vector marks a document as indexed that has no entry (`SoundExactly`,
  `Breaks`, `BrokenRemoval`).
- A failed embedding takes the document out of memory but not out of the files: a restart
  brings it back, unless another document was indexed in between (`RestartShowsSaved`).
  Saving an empty index leaves an old vector file in place (`EmptyLoaded`).

## Model

| member | source | states |
|---|---|---|
| Messages.OpenMeaning | pawlia/agents/base.py:338-358 | an id counts as open after a list exactly when some AI message names it and only tool results follow that message |
| Messages.ValidTurn | pawlia/agents/skill_runner.py:585-589 | an AI message with its tool results after a valid list gives a valid list |
| Sanitizer.CleanAll | pawlia/agents/base.py:323-336 | first pass: surrogates replaced, message by message, roles and calls kept |
| Sanitizer.DropOrphans | pawlia/agents/base.py:338-358 | second pass, against the recursive account of which results answer an open call |
| Sanitizer.StaleIndices | pawlia/agents/base.py:269-287 | the gathered indices are exactly the tool results outside the last two batches |
| Sanitizer.CompressToolResults | pawlia/agents/base.py:258-310 | third pass: exactly the old long results are condensed, whatever order they are visited in |
| Sanitizer.MergeNeighbours | pawlia/agents/base.py:362-386 | fourth pass, against the recursive merge |
| Sanitizer.Sanitize | pawlia/agents/base.py:313-386 | the four loops compute the repaired list that the laws below are about |
| SanitizerLaws.SanitizedWellFormed | pawlia/agents/base.py:313-386 | the repaired list is tool-valid, has no two neighbouring Human or AI messages, keeps all tool calls in order and every non-blank character of every speaker |
| SanitizerLaws.SanitizedResults | pawlia/agents/base.py:338-360 | exactly the tool results that answer the latest non-tool message survive, in order, condensed exactly outside the last two batches |
| SanitizerLaws.SanitizedTwice | pawlia/agents/base.py:297-308 | repairing twice equals repairing once if and only if no condensed result is over 200 characters |
| SanitizerLaws.SanitizedIdempotent | pawlia/agents/base.py:297-308 | which holds for every tool output below 10^19 characters |
| SanitizerLaws.ShrunkTwice | pawlia/agents/base.py:297-308 | a condensed result condenses to itself if and only if it has at most 200 characters |
| SanitizedForm.CleanedExactly | pawlia/agents/base.py:323-336 | each lone surrogate, U+D800 to U+DFFF, becomes U+FFFD and nothing else changes |
| SanitizedForm.OldExactly | pawlia/agents/base.py:269-290 | a tool result is condensed exactly when two more batches of results begin after it |
| SanitizedForm.ShrunkExactly | pawlia/agents/base.py:291-308 | a result of more than 200 characters becomes two lines: how many lines and characters it had, and its first line, whole up to 120 characters, else 117 of them without white space at their end and three dots |
| SanitizedForm.JoinedExactly | pawlia/agents/base.py:362-386 | two neighbours of one voice become one message with an empty line between their texts and the calls of both |
| SanitizedForm.NeighboursDiffer | pawlia/agents/base.py:362-386 | in a repaired list no two neighbours have the same voice |
| SanitizedForm.OthersStay | pawlia/agents/base.py:362-386 | a list without such neighbours is not changed by merging |
| Retry.Invoke | pawlia/agents/base.py:131-251 | every attempt but the last failed and follows from the one before by the recovery of its category; the last one succeeded or has no recovery; never more than the limit |
| Retry.AttemptsBounded | pawlia/agents/base.py:157-251 | at most max_retries + 1 model calls (two when it is below 1) for any sequence of failures, although compaction checks no limit |
| Retry.BoundReached | pawlia/agents/base.py:157-251 | the bound is sharp: a run that uses every allowed attempt |
| Retry.CompactShrinks | pawlia/agents/base.py:389-400 | compaction shortens a list exactly from seven messages on, always to six |
| Retry.RetriesAppend | pawlia/agents/base.py:157-251 | without an overflow, retries only ever add synthetic tool results to the first prompt |
| RetryLaws.RecoveryExactly | pawlia/agents/base.py:157-251 | what follows a failure, by its category: the same prompt while attempts are left, one more tool result, the first message, a note and the last four messages exactly from seven messages on, or nothing |
| RetryLaws.CompactValid | pawlia/agents/base.py:389-400 | a compacted list is tool-valid if and only if the fourth message from the end was no tool result |
| RetryLaws.SyntheticValid | pawlia/agents/base.py:182-213 | a prompt with the result put in for a failed use of a tool is tool-valid if and only if the model has named this very id |
| RetryLaws.SyntheticIds | pawlia/agents/base.py:201-201 | the ids are numbered and no two attempts have the same |
| RetryLaws.PassingCourse | pawlia/agents/base.py:157-251 | n passing failures are borne if n is below max_retries, after n + 1 calls with one and the same prompt; else the failure is surfaced after max_retries calls |
| RetryLaws.ThreeAttempts | pawlia/agents/base.py:131-251 | with the usual three attempts two passing failures are borne and a third is not |
| RetryLaws.SurfacedExactly | pawlia/agents/base.py:157-251 | what a run was given up for: no passing failure before max_retries attempts, no overflow of seven messages or more |
| Condense.EstimateTokens | pawlia/llm.py:363-382 | the counting loop computes the recursive estimate |
| Condense.FitsContext | pawlia/llm.py:384-389 | whether a list fits a window, with the reserve and the unlimited window |
| Condense.PickLines | pawlia/llm.py:481-494 | the loop over the lines from the newest back picks the lines of the recursive account |
| Condense.CondenseMessages | pawlia/llm.py:444-507 | the steps on the list compute the condensed list that PromptTail.SplicedKeeps and IntactExactly describe message by message |
| Condense.KeepLevels | pawlia/llm.py:550-560 | the collected keep levels are the ladder |
| Condense.ClimbLadder | pawlia/llm.py:550-573 | the result is that of the first level that changes the list and fits, else none |
| CondenseLaws.CondensedValid | pawlia/llm.py:444-531 | condensing keeps every remaining tool result attached to its call |
| CondenseLaws.TokensWeighed | pawlia/llm.py:363-382 | four characters make a token and each text is rounded up on its own |
| CondenseLaws.WindowExactly | pawlia/llm.py:384-389 | which lists fit a window: 1024 tokens are held back, windows below 1036 take nothing, those not known everything |
| CondenseLaws.PickSound | pawlia/llm.py:481-494 | the kept lines are an order-preserving part that holds the newest, kept and dropped make all, and the cost is at most the budget or that of the newest line |
| CondenseLaws.OldestDropped | pawlia/llm.py:481-497 | the dropped lines are the oldest ones, as the header says, if and only if no older line is short enough to be squeezed in |
| CondenseLaws.OldestKept | pawlia/llm.py:481-497 | three lines of which the middle one is dropped |
| CondenseLaws.LadderDescends | pawlia/llm.py:550-560 | keep levels start with all pairs, go down to three quarters at each step while three are left, and end with two, then one |
| CondenseLaws.LadderShort | pawlia/llm.py:550-560 | their number is logarithmic: 3·4^(L-1) <= n·3^(L-1) |
| CondenseLaws.FirstRungIdle | pawlia/llm.py:550-560 | the first level never changes the list |
| CondenseLaws.ClimbedExactly | pawlia/llm.py:550-573 | the ladder keeps as many pairs as fit, and gives up only when no level fits |
| Fallback.FitPrompt | pawlia/llm.py:607-681 | fitting one prompt: as it is, distilled, or the first rung of the ladder that fits |
| Fallback.FittedSafe | pawlia/llm.py:533-681 | whatever is handed on fits the window and is tool-valid if its input was |
| Fallback.PromptsSafe | pawlia/llm.py:706-775 | over a whole request, every prompt of every model, first or forced second call, fits that model and keeps tool results attached |
| PromptTail.SplicedKeeps | pawlia/llm.py:458-531 | the condensed list is the first message, one Human note and the end of the list: each of the last messages with its role, calls and id and its content, of which only that of a tool result over 800 characters is certain for its first 800 alone; of the last 2 * keep nothing is missing but tool results in front |
| PromptTail.CondensedKeeps | pawlia/llm.py:444-507 | a list of at most 2 + 2 * keep messages stays as it is, a longer one is shortened so |
| PromptTail.CapExactly | pawlia/llm.py:509-531 | what the cap makes of a tool result of more than 800 characters |
| PromptTail.IntactExactly | pawlia/llm.py:444-507 | the last 2 * keep messages are kept intact if and only if they do not begin with a tool result and none of them is one that the cap changes |
| PromptTail.NoteReads | pawlia/llm.py:468-498 | the note can be read back: a heading with the number of messages it stands for and of missing lines, and the other lines in order |
| PromptTail.LineShows | pawlia/llm.py:429-480 | what the note says of each kind of message: the first 500 characters of questions and answers, the first 200 of tool results, on one line each |
| PromptTail.DistilledKeeps | pawlia/llm.py:630-681 | a distilled list is shortened in the same way and keeps the last ten messages |
| PromptTail.FittedCarries | pawlia/llm.py:607-681 | whatever is handed on is the list itself or a shorter one that keeps its last two messages, tool results apart |
| PromptTail.PromptsCarry | pawlia/llm.py:706-775 | over a whole request, whatever models were tried before: every prompt is the list of the request or its first message, a note and its end |
| PromptTail.QuestionAsked | pawlia/llm.py:706-775 | a request that ends with a question puts this question last, and the same first message first, in every prompt of every model |
| PromptTail.SecondCalls | pawlia/llm.py:742-753 | a second call comes only after a reported overflow, with a shorter prompt that fits the window |
| Strikes.CountIsModulo | pawlia/llm.py:394-426 | the failure count of a model is the number of eligible failed requests since its last success, modulo three |
| Strikes.BenchTakesThree | pawlia/llm.py:409-426 | a bench takes three different eligible failed requests without a success or a bench in between |
| Benches.EventExactly | pawlia/llm.py:399-426 | a request speaks against a model exactly when its last call failed other than by prompt, access or format |
| Benches.ThreeStrikes | pawlia/llm.py:399-426 | of three failed requests in a row the first two change no bench, the third benches for 1800 seconds from its end and the count starts again |
| Benches.SkippedExactly | pawlia/llm.py:330-420 | a request skips the model exactly as long as it comes to its turn before the 1800 seconds are over |
| Benches.Forgiven | pawlia/llm.py:394-397 | an answer clears count and bench at any number of failures |
| Chain.FallbackChain.NoteFailure | pawlia/llm.py:399-426 | the full effect of one failure on count, bench and last error |
| Chain.FallbackChain.NoteSuccess | pawlia/llm.py:394-397 | a success clears count, bench and last error |
| Chain.FallbackChain.AllAreBenched | pawlia/llm.py:683-704 | whether every model is benched at this moment |
| Chain.FallbackChain.TryModels | pawlia/llm.py:713-775 | the loop over the chain: first success returned, benched models skipped, each request counts at most once per model, and the final assertion on the last exception holds |
| Chain.FallbackChain.Invoke | pawlia/llm.py:706-775 | one request, for any replies and non-decreasing clock: what was done with which model in order, the result, and the exact change of every count and bench |
| Requests.LastFailureSome | pawlia/llm.py:774-775 | some exception was recorded when no model succeeded and not all were benched |
| ToolLoop.ExecuteCalls | pawlia/agents/skill_runner.py:585-589 | one tool result appended per call, in order, and the error flags |
| ToolLoop.CountCalls | pawlia/agents/skill_runner.py:601-604 | the signature counters tally everything executed |
| ToolLoop.AnswersSanitized | pawlia/agents/base.py:338-358 | repairing a list keeps exactly the ids of its answering results |
| ToolLoop.LongestBounds | pawlia/agents/skill_runner.py:660-672 | any stretch of silent turns is within the longest one |
| LoopCourse.TakenExactly | pawlia/agents/skill_runner.py:606-730 | the counters and flags of the loop are enough: it ends with a round exactly when the replies say so, for the reason they give |
| LoopCourse.BreaksExactly | pawlia/agents/skill_runner.py:660-691 | the counters tell what the replies tell: ten blank tool replies in a row, or else some call that has come six times |
| LoopCourse.SaidExactly | pawlia/agents/skill_runner.py:665-716 | and so do the flags: one nudge at six blank replies in a row, one at a call that has come four times, never both at once |
| LoopCourse.CallsLimited | pawlia/agents/skill_runner.py:679-691 | with no breaker tripped no call was executed more than five times, unless the first reply alone holds more |
| LoopCourse.SilenceLimited | pawlia/agents/skill_runner.py:660-677 | and at most nine blank replies came in a row |
| SkillLoop.TextReply | pawlia/agents/skill_runner.py:632-655 | a reply without calls: nudged if it shows nothing finished, fewer than two times, else taken for the answer |
| SkillLoop.CheckProgress | pawlia/agents/skill_runner.py:660-692 | the breakers, both ways: Silent exactly at the tenth blank tool reply in a row, Repeated exactly when that does not hold and some call, with those of this reply, has come six times; else the counters go on |
| SkillLoop.RunTurn | pawlia/agents/skill_runner.py:694-730 | all calls of the reply are executed, their results appended in order, and then what steers the model |
| SkillLoop.TakeUp | pawlia/agents/skill_runner.py:606-730 | one reply taken up: what it leaves of the counters and in the message list, and whether it ends the loop |
| SkillLoop.Turn | pawlia/agents/skill_runner.py:606-730 | one turn ends the loop exactly when the replies so far, with this one, say so |
| SkillLoop.Run | pawlia/agents/skill_runner.py:574-745 | the whole loop, for any replies: it goes on after every round but the last, and why it ends is told by the replies alone (three skipped prompts; an accepted text reply: after two nudges, or with something finished to show, tools called and none failed; ten blank replies; six equal calls; a broken skill; no turns left); each reply, and the one returned or the exception, is what calling the model with its prompt gives; at most max_turns model calls, and every prompt holds all tool results so far |
| SkillLoop.RunLimited | pawlia/agents/skill_runner.py:574-745 | however it ends: a signature executed at most max(5, its count in the first reply) times, at most nine silent turns in a row, as many results as executed calls |
| TtsFrames.SentenceWhole | pawlia/interfaces/call_core.py:127-145 | the frames of a sentence sound like the sentence followed by fewer than 960 zeros |
| TtsFrames.OnlyLastPadded | pawlia/interfaces/call_core.py:127-145 | only the last frame of a sentence is padded |
| HoldLoop.GaplessContinues | pawlia/interfaces/call_core.py:165-175 | hold audio is periodic without a gap when the loop has at least 960 samples |
| TtsCourse.HeadIsCurrent | pawlia/interfaces/call_core.py:147-163 | a set current sentence means that the head of the queue belongs to it |
| TtsCourse.OthersDiffer | pawlia/interfaces/call_core.py:110-125 | no other waiting frame carries the current id |
| TtsCourse.RunKeeps | pawlia/interfaces/call_core.py:63-181 | over any run of enqueue, next frame, stop-after-sentence and interrupt: sentences are heard whole and in order, without hold or silence inside; only an interrupt cuts one |
| TtsPlain.RunTold | pawlia/interfaces/call_core.py:63-181 | over any run of enqueuing, taking frames, stopping and interrupting, what is heard and still to come is that of a plain list of frames from which an interrupt drops all and a stop all but the sentence being heard |
| TtsPlain.NothingLost | pawlia/interfaces/call_core.py:63-181 | as long as nothing stops it, what was heard and is to come is together all that was to be said, frame for frame |
| TtsBuffer.TtsBuffer.Enqueue | pawlia/interfaces/call_core.py:127-145 | a sentence is cut into frames behind the queue; empty audio is ignored |
| TtsBuffer.TtsBuffer.NextFrame | pawlia/interfaces/call_core.py:147-181 | the next frame, 960 samples long, of the sentence at hand, else of the hold loop, else silence |
| TtsBuffer.TtsBuffer.StopAfterCurrentSentence | pawlia/interfaces/call_core.py:110-125 | only sentences not yet started are dropped |
| TtsBuffer.TtsBuffer.Interrupt | pawlia/interfaces/call_core.py:101-108 | everything that was not played is dropped |
| Vad.ToleranceRange | pawlia/audio/vad.py:610-642 | the quiet tolerance lies between base and ceiling, the loud one is fixed, none is below 1.2 seconds |
| Vad.ToleranceMonotone | pawlia/audio/vad.py:610-642 | the longer the caller speaks, the longer a pause is tolerated |
| Vad.ResumeMonotone | pawlia/audio/vad.py:644-659 | a longer tolerance never asks for a shorter return of speech |
| Vad.ResumeRange | pawlia/audio/vad.py:644-659 | the resume requirement stays between its minimum and its maximum |
| Vad.ResumeEnds | pawlia/audio/vad.py:644-659 | and reaches both ends |
| Vad.CapDisabled | pawlia/audio/vad.py:583-608 | a cap limits nothing exactly when it is shorter than one frame |
| CallTiming.DefaultTolerance | pawlia/audio/vad.py:610-642 | the tolerance after k frames with the default settings, in frames: (9000 + 12 k) / 100 and 150 at most |
| CallTiming.LoudTolerance | pawlia/audio/vad.py:610-642 | in loud surroundings it is as set, but at least 60 frames |
| CallTiming.DefaultResume | pawlia/audio/vad.py:644-659 | by default speech has to last for 3 frames to end a pause, one more for each 100 frames spoken, up to 8 |
| CallTiming.NeededExactly | pawlia/interfaces/call_core.py:1286-1293 | what is asked for is the largest of the three demands, but 20 frames at most |
| CallTiming.CapExactly | pawlia/audio/vad.py:583-608 | which cap holds: that of loud surroundings where set, none without one in quiet ones; 750 and 400 frames by default |
| Utterances.DisjointPairs | pawlia/interfaces/call_core.py:1295-1379 | of two chunks of a call, the earlier ends before the later begins |
| Endpointing.CallSound | pawlia/interfaces/call_core.py:1188-1379 | in every state of every call: chunks, open utterance and ready pre-roll are disjoint frame ranges in order, no speech frame is lost, the pause is below the tolerance and the length below the cap |
| Endpointing.CapFlushContinues | pawlia/interfaces/call_core.py:1295-1312 | a cap flush in running speech loses no frame and doubles none |
| Endpointing.CapCloses | pawlia/interfaces/call_core.py:1279-1312 | with both caps at work an open utterance is cut within the longer of them |
| Endpointing.Unbounded | pawlia/interfaces/call_core.py:1279-1312 | with a cap shorter than a frame nothing bounds unbroken speech |
| Endpointing.GustsHoldNothing | pawlia/interfaces/call_core.py:1264-1379 | as long as every return of speech stays shorter than what is asked for at its frame, none takes a frame off the pause, however many gusts blow; the quiet frames together stay fewer than the tolerance |
| Endpointing.PauseCleared | pawlia/interfaces/call_core.py:1264-1379 | a pause is cleared exactly by the frame at which the consecutive speech reaches what is asked for at that frame |
| Endpointing.LastsExactly | pawlia/interfaces/call_core.py:1264-1379 | a pause lives through a run of frames if and only if no return of speech in it does |
| Endpointing.PauseCloses | pawlia/interfaces/call_core.py:1287-1379 | an uncleared pause ends the utterance, short of the cap, exactly at a quiet frame that makes up the tolerance at that frame |
| Segmenter.ContentLength | pawlia/audio/vad.py:662-669 | an open buffer has pre-roll + 1 + frames since start, and holds the trigger frame twice when there is pre-roll |
| Segmenter.CountSpeech | pawlia/audio/vad.py:533-545 | the resume counter cancels a pause exactly after a consecutive run as long as asked for |
| Segmenter.Segmenter.Roll | pawlia/interfaces/call_core.py:1238-1239 | the pre-roll buffer holds the latest frames |
| Segmenter.Segmenter.Frame | pawlia/interfaces/call_core.py:1208-1379 | one frame with all buffers and counters does what the rules without them say; an empty buffer means both counters are 0 |
| Segmenter.Segmenter.Run | pawlia/interfaces/call_core.py:1188-1379 | over a whole call exactly the chunks of the rules come out, frame for frame |
| CallTiming.CallAhead | pawlia/interfaces/call_core.py:1188-1379 | a call does not depend on when an utterance begins: from two states past frame 40 that differ only by a shift of d frames, the same frames give the same pauses and chunks, d frames later |
| CallTiming.Settling | pawlia/interfaces/call_core.py:1241-1249 | in the first 40 frames nothing is taken for speech |
| CallTiming.Waiting | pawlia/interfaces/call_core.py:1238-1239 | between utterances the pre-roll gathers the latest frames, as many as it holds |
| CallTiming.Opening | pawlia/interfaces/call_core.py:1238-1353 | the first frame of speech opens an utterance there, with those frames as pre-roll |
| CallTiming.ClosedExactly | pawlia/interfaces/call_core.py:1188-1379 | with the default settings in quiet surroundings, whenever it begins: an utterance of n frames of speech is closed by exactly the quiet frame with the number (8976 + 12 n) / 88, or 150, and its chunk runs from its first frame, after the pre-roll, to that one |
| CallTiming.ClosedAfterOneSecond | pawlia/interfaces/call_core.py:1188-1379 | after 50 frames of speech this is the 108th quiet frame, from 352 on the 150th |
| CallTiming.FlushedExactly | pawlia/interfaces/call_core.py:1295-1312 | who goes on talking is cut after 750 frames in quiet surroundings and 400 in loud ones, and the next frame begins an utterance |
| DayLogSearch.PawliaProper | pawlia/memory.py:413-439 | the markers of the format have the properties that the proofs use |
| DayLogSearch.SearchSkips | pawlia/memory.py:413-439 | a section pattern matches nowhere in text without an opener line |
| DayLogSearch.SectionMatches | pawlia/memory.py:413-425 | a rendered section matches where it starts, with its own heading, body and end |
| DayLogLaws.ThreadShown | pawlia/memory.py:763-768 | reading a thread back gives the body of its section |
| DayLogLaws.MainShown | pawlia/memory.py:757-760 | reading the main history back gives what stands before the sections |
| DayLogRuns.UpsertShown | pawlia/memory.py:801-832 | adding a block to a thread of a laid-out log gives the log with that block, in the same layout |
| DayLogRuns.UpsertedOk | pawlia/memory.py:801-832 | the layout is kept |
| DayLogRuns.UpsertHistories | pawlia/memory.py:757-832 | adding a block to a thread extends exactly its history and leaves every other thread and the main history as they were |
| DayLogMain.AppendHistories | pawlia/memory.py:757-850 | a main entry extends the main history by exactly the entry and keeps every thread |
| DayLogMain.AppendedOk | pawlia/memory.py:835-850 | and keeps the layout |
| DayLogMain.AppendExactly | pawlia/memory.py:835-850 | which holds if and only if the log does not begin with a section |
| DayLogMain.MainBehind | pawlia/memory.py:835-850 | in a log that begins with a section the entry comes back with a line break before it |
| DayLogMain.DayHistories | pawlia/memory.py:757-850 | over any day that begins with a main entry, both kinds of history are exactly what was written, in order |
| DayLogMain.DayJoined | pawlia/memory.py:757-850 | they are the entries, or the blocks of the thread, one behind the other, each on lines of its own |
| DayTitles.DayTitle | pawlia/memory.py:789-832 | each thread stands under the title it was begun with, "Thread" if that is blank, whatever titles came later; one that nothing was written to does not stand there |
| ExchangeParts.LogProper | pawlia/memory.py:107-111 | the fixed words of the format have the properties that the proofs use |
| ExchangeParts.EntryRead | pawlia/memory.py:107-110 | the entry pattern takes a formatted entry apart at its question |
| ExchangeLog.TakeCalls | pawlia/memory.py:902-920 | the loop over the tool comments computes the visible text and the decoded calls |
| ExchangeLog.ParseExchanges | pawlia/memory.py:889-923 | the loop over the matches computes the parsed exchanges |
| ExchangeLaws.CommentRead | pawlia/memory.py:111 | a tool comment is read as exactly its JSON text |
| ExchangeLaws.EraseComment | pawlia/memory.py:909-917 | erasing a comment takes all its copies and nothing else |
| ExchangeRoundTrip.EntryFinished | pawlia/memory.py:889-923 | an entry that was read is the exchange that was written |
| ExchangeRoundTrip.RoundTrip | pawlia/memory.py:771-923 | a log of trimmed, delimiter-free exchanges, in whose answers nothing is read as a tool call, is read back as written if and only if every exchange but the last has an answer or a tool call |
| ExchangeRoundTrip.Swallowed | pawlia/memory.py:107-110 | an exchange with neither swallows the head of the next one |
| DayExchanges.DayParsed | pawlia/memory.py:757-923 | through the day log and back: the exchanges parsed from the main history of a day are exactly those that took place, whatever threads are written in between |
| Sentences.SplitSentences | pawlia/agents/chat.py:172-186 | the loop computes the recursive split |
| Sentences.SplitKeeps | pawlia/agents/chat.py:172-186 | splitting loses nothing but white space |
| Sentences.SplitRest | pawlia/agents/chat.py:172-186 | the remainder holds no further sentence |
| Sentences.SplitGrows | pawlia/agents/chat.py:172-186 | splitting the remainder when more text has come goes on with the splitting of the whole text |
| SentenceForm.EndExactly | pawlia/agents/chat.py:39-39 | a sentence ends exactly at the first of . ! ? and the ellipsis that has white space behind it |
| SentenceForm.SplitExactly | pawlia/agents/chat.py:172-186 | what is cut off are sentences, one each, and none ends in the remainder |
| SentenceForm.MarkedExactly | pawlia/agents/chat.py:49-51 | the greedy search for a marker finds one exactly when the regular expression matches somewhere, and where it first does |
| SentenceForm.PatternShown | pawlia/agents/chat.py:49-51 | this is the regular expression |
| Thinking.PlainText | pawlia/agents/base.py:418-429 | without tags only leading line breaks and trailing white space are stripped, and no thought is open |
| Thinking.StripGrows | pawlia/agents/base.py:418-429 | the stripped text only grows while tag-free text comes in |
| Thoughts.ThoughtGone | pawlia/agents/base.py:418-431 | a thought between its tags is taken out, tags and all |
| Thoughts.EndGone | pawlia/agents/base.py:418-431 | when a thought ends that was not seen to begin, everything up to its end goes |
| Thoughts.CallGone | pawlia/agents/base.py:418-431 | a leaked call is taken out, tags and all |
| Thoughts.TokenGone | pawlia/agents/base.py:418-431 | from a template token on nothing is left |
| Thoughts.Thinks | pawlia/agents/chat.py:1381-1384 | a thought that has begun and not ended holds back what is spoken |
| Thoughts.TagsTagged | pawlia/agents/base.py:32-40 | the tags and tokens of the source are as these laws ask for |
| Streaming.CatchUp | pawlia/agents/chat.py:1410-1421 | emitted_len always points at the remainder of the clean text |
| CallMarkers.MarkedGrows | pawlia/agents/chat.py:49-51 | a marker of a written-out tool call that was seen stays when more text comes |
| Streaming.Stream | pawlia/agents/chat.py:1345-1430 | for tag-free text without marker, however it is cut into chunks, what is spoken equals the batch split of the stripped text, flush included; a marker ends it, and the sentences of the text up to the end of its chunk are spoken |
| Streaming.AllSpoken | pawlia/agents/chat.py:1345-1430 | an answer without a marker is spoken to its last character, in order, but for white space and what the cleaner takes |
| Streaming.AtMarker | pawlia/agents/chat.py:1386-1410 | these sentences are the ones complete before the marker and those that end from its start on; there are none of the latter exactly when no stop with white space comes there |
| Streaming.OnlyBefore | pawlia/agents/chat.py:1386-1410 | only the sentences before the marker are spoken if and only if there are none of the latter, or the cleaner leaves nothing of them |
| Streaming.MarkerSpoken | pawlia/agents/chat.py:1386-1410 | one chunk out of which a marker is spoken as a sentence, by every cleaner that keeps it |
| Streaming.MarkerExists | pawlia/agents/chat.py:49-51 | such markers exist, free of the tags that are really looked for |
| Calendar.FromOrdinalOf | pawlia/scheduler.py:127-140 | day numbers and dates are inverse to each other |
| Calendar.OrdinalOrder | pawlia/scheduler.py:127-166 | day numbers are ordered as dates are |
| Weeks.BeforeYearExactly | pawlia/scheduler.py:127-140 | the days before a year, by the Gregorian rule of leap years |
| Weeks.NewYearKnown | pawlia/scheduler.py:127-140 | 1 January 2024 is day 738886 |
| Weeks.LastDayKnown | pawlia/scheduler.py:127-140 | 31 December 9999 is the last day that datetime knows |
| Weeks.WeekdayExactly | pawlia/scheduler.py:141-141 | the weekday of a date is what is left of the days since that day when whole weeks are taken away, and each day has the next one |
| Weeks.KnownMonday | pawlia/scheduler.py:141-141 | 1 January 2024 is a Monday |
| Recurrence.FindNext | pawlia/scheduler.py:110-166 | the search as it runs computes the first fitting date of the sorted candidates |
| RecurrenceLaws.NextIsEarliest | pawlia/scheduler.py:126-166 | what is returned lies in the window, on a day of the rule up to that of UNTIL, and is an occurrence exactly if the rule has not ended by then; no occurrence from now on is earlier |
| RecurrenceLaws.NothingFound | pawlia/scheduler.py:126-166 | nothing is returned exactly when no moment of the rule up to the day of UNTIL lies in the window as far as the search looks |
| FirstOccurrence.FirstIsFirst | pawlia/scheduler.py:126-166 | the first moment of the rule, computed without a search, is one of the rule, from now on and from the start of the event on |
| FirstOccurrence.FirstBefore | pawlia/scheduler.py:126-166 | and no moment of the rule from now on is earlier |
| FirstOccurrence.NextIsFirst | pawlia/scheduler.py:110-166 | for every event, moment and window the search returns this first moment, when it lies in the window, on a day up to that of UNTIL and not beyond where the search looks, else nothing |
| FirstOccurrence.RightExactly | pawlia/scheduler.py:110-166 | the search is right, returning the first occurrence in the window or nothing when there is none, if and only if the first moment, when it lies there on a day up to that of UNTIL, lies where the search looks exactly if the rule has not ended by then |
| FirstOccurrence.SteadyExact | pawlia/scheduler.py:126-166 | when the event has begun and its day exists in every month or year, it is right for every window, but where the rule ends on its last day before the time of the event |
| FirstOccurrence.NearExact | pawlia/scheduler.py:126-166 | and so it is for every event in any window (daily), seven days (weekly), this and the next month or year |
| Weeks.WeeklyFound | pawlia/scheduler.py:131-142 | what is found for one weekday of BYDAY lies that many days and whole weeks from Monday, 1 January 2024, at the time of the event, in the window |
| Weeks.WeeklyExactly | pawlia/scheduler.py:131-142 | and each such moment within seven days, in the window, is found for an event that has begun and does not end |
| FirstOccurrence.UntilExactly | pawlia/scheduler.py:120-127 | nothing is ever returned after the moment of UNTIL if and only if the rule does not end, on a day that it allows, before the time of the event |
| FirstOccurrence.KeptExactly | pawlia/scheduler.py:154-165 | for these rules, and no others, everything that the search takes for an occurrence is one |
| FirstOccurrence.LateOnLastDay | pawlia/scheduler.py:120-127 | a daily event at 17:00 whose rule ends at 08:00 of a day is returned for 17:00 of that day |
| FirstOccurrence.NotBegun | pawlia/scheduler.py:126-166 | an event that begins beyond where the search looks is missed |
| FirstOccurrence.WeeklyMiss | pawlia/scheduler.py:131-142 | a weekly event that begins in ten days is not found in a window of fourteen |
| FirstOccurrence.MonthlyMiss | pawlia/scheduler.py:143-151 | a family of longer windows whose occurrence is missed |
| EventStarts.FindStart | pawlia/scheduler.py:701-723 | the look-ahead and the search as they run compute the start that counts, or fail at a date outside the calendar |
| EventStarts.SoonCounts | pawlia/scheduler.py:707-722 | an occurrence, up to the day of UNTIL, that begins within the next quarter of an hour is the start that counts |
| EventStarts.StartExactly | pawlia/scheduler.py:719-723 | an occurrence within the look-ahead is the start that counts exactly when it is the first from now on and not beyond where the search looks |
| EventStarts.StartAhead | pawlia/scheduler.py:719-723 | the start of a recurring event is a moment of its rule and never before now |
| EventNotices.Notifier.Check | pawlia/scheduler.py:682-761 | one check finds the start of every entry, announces or only marks what is due and was not announced, remembers it, and ends early at a date outside the calendar |
| EventNotices.NeverTwice | pawlia/scheduler.py:682-761 | over any run of checks nothing is announced twice |
| NoticeLaws.AllSentHolds | pawlia/scheduler.py:682-761 | over any run of checks exactly what some check, as far as it gets, has to announce is announced or marked, but for what was known before |
| NoticeLaws.OccurrenceAnnounced | pawlia/scheduler.py:682-740 | over any run of checks the user is told of an occurrence of an entry, and then once, if and only if some check that gets as far as the entry falls into the quarter of an hour before it and it was not known |
| NoticeLaws.ReminderAnnounced | pawlia/scheduler.py:742-761 | and a reminder of it is marked if and only if some check that gets as far as it falls into its span: from its time on while the occurrence counts, up to the start of a recurring event or a quarter of an hour past that of another; the user is told exactly when it is also to be sent |
| UsualNotices.OccurrenceTold | pawlia/scheduler.py:682-740 | in usual years, over any run of checks, the user is told of an occurrence, and then once, if and only if some check comes in the 900 seconds before it with the entry in the calendar |
| UsualNotices.ReminderTold | pawlia/scheduler.py:742-761 | and of a reminder of it that is to be sent if and only if some check comes in its span |
| NoticeLaws.ThroughExactly | pawlia/scheduler.py:701-753 | a check gets through all entries if and only if none of them, as things stand before it, leads out of the calendar |
| NoticeLaws.ThroughReaches | pawlia/scheduler.py:701-753 | and then it gets as far as every entry |
| NoticeLaws.Silenced | pawlia/scheduler.py:701-709 | over any run nothing is announced of an entry listed behind one whose reminder lies more than the whole calendar ahead |
| ReminderFiles.Scheduler.Tick | pawlia/scheduler.py:634-680 | one tick of the files as they are written changes exactly the lines that fired, each as told, keeps every line count and the shape of the lines, and announces exactly the due reminders in order |
| ReminderFiles.TickedLine | pawlia/scheduler.py:272-314 | editing by line numbers read before the edits comes to ticking each line by itself |
| ReminderFiles.ReadAgain | pawlia/scheduler.py:272-314 | lines of that shape, written to a file, are read again as they are |
| ReminderLines.DoneRead | pawlia/scheduler.py:272-285 | the text of a line that is marked done is read back with the new mark and a tick, else as it was, and ends in one line break |
| ReminderLines.MovedRead | pawlia/scheduler.py:294-314 | mark, bell, tick, title and the new time of a line that is moved are read back, and it ends as before |
| RecurrenceTexts.RuleMoved | pawlia/scheduler.py:203-206 | and so is its rule, even where the recurrence text spans the time: no keyword of a rule stands across it |
| ReminderTexts.TickSays | pawlia/scheduler.py:634-680 | after a tick the text of any line says what the tick makes of what it said before |
| ReminderTexts.RunSays | pawlia/scheduler.py:634-680 | over any run of ticks a text fires as often as the record read off it once and says in the end what becomes of that record, so that the laws on records below hold of texts |
| WrittenReminders.WrittenRead | pawlia/scheduler.py:220-268 | a line of box, title, bell and time behind an hourglass is read as it was written |
| WrittenReminders.WrittenOnce | pawlia/scheduler.py:257-259 | without a repeat sign the reminder is for once |
| WrittenReminders.WrittenAgain | pawlia/scheduler.py:257-259 | with one, the text behind it names the rule |
| WrittenReminders.WrittenFires | pawlia/scheduler.py:634-680 | a reminder written down for a moment fires once, and exactly when some tick comes at this moment or later |
| ReminderTexts.PrintSame | pawlia/scheduler.py:311-311 | a printed time can be read in one way only |
| ReminderLaws.OneShot | pawlia/scheduler.py:634-680 | over any run of ticks a one-shot reminder fires exactly once if some tick finds it due, else never |
| ReminderLaws.NextLater | pawlia/scheduler.py:786-806 | a recurring reminder moves strictly forward: one calendar month, a week or a day, although its seconds are cut off |
| ReminderLaws.MonthMoves | pawlia/scheduler.py:793-799 | a month later is the next calendar month, on the same day or on day 28 |
| ReminderLaws.DayFallsBack | pawlia/scheduler.py:793-799 | once on day 28 a monthly reminder stays there |
| ReminderLaws.FiresBounded | pawlia/scheduler.py:634-680 | up to any moment a recurring reminder fires at most once for each day since its time |
| ReminderLaws.CatchesUp | pawlia/scheduler.py:634-680 | an overdue reminder is past now after as many ticks as there are days between |
| Jobs.JobRunner.Process | pawlia/automation.py:443-517 | one poll: every job by itself when all schedules can be read; else the poll stops at the first that cannot, and the file is as last saved |
| Jobs.RunningExactly | pawlia/automation.py:443-517 | each job that a poll reaches and that is due runs once, in order, and no other |
| JobFiles.EachAlone | pawlia/automation.py:443-585 | over any run of polls and forced runs of a whole file, a job whose runs are recorded is left and was run as if it were alone with the polls that reach it |
| JobFiles.FileServedOnce | pawlia/automation.py:443-585 | so its served targets are strictly increasing, with a forward clock |
| JobFiles.ReadableRemembered | pawlia/automation.py:443-585 | when every enabled job has a time that exists and no interval reaches past the calendar, every poll reaches every job and every run is recorded |
| JobFiles.FileDayServed | pawlia/automation.py:443-585 | in such a file, on a day of its schedule, a job runs exactly once, at the first poll at or after the target that is past the two-minute guard, or, without a last run, under two minutes after the target |
| JobFiles.FileIntervalApart | pawlia/automation.py:443-549 | an unforced interval run of a job whose runs are recorded is at least the interval after every earlier one |
| JobFiles.FailsExactly | pawlia/automation.py:519-549 | reading a schedule fails exactly when no run is asked for and its day has come without its time of day existing, or its interval reaches past the calendar |
| JobFiles.SavedExactly | pawlia/automation.py:443-517 | a poll that stops remembers the run of an earlier job exactly when a forced job between them was about to run |
| JobFiles.DueAgain | pawlia/automation.py:532-539 | a target that is due stays due for the day while no run is recorded, without a last run for two minutes |
| JobFiles.ServedAgain | pawlia/automation.py:443-585 | a later poll of the day serves the same target again if and only if the poll stopped further down, saved nothing in between, no earlier job awakes with a time that does not exist or an interval that reaches too far, and the target is still due |
| JobFiles.NineTwice | pawlia/automation.py:443-585 | a file of two jobs in which two polls of one morning serve nine o'clock twice |
| JobFiles.NineTwiceByInterval | pawlia/automation.py:519-549 | and so does a file of a job at nine and one with an interval of 9999999 days |
| JobRepeats.TwiceExactly | pawlia/automation.py:443-549 | while no interval reaches past the calendar, some run of polls alone serves a target of a job twice if and only if one poll of the file as it stands would run the job and stop at a later one |
| JobTimes.FileInTurn | pawlia/automation.py:443-549 | in a file whose schedules can all be read, over any run of polls: an enabled interval job with something to run runs at the first poll if it has no last run, else exactly at the first poll whose clock is the interval or more after it, and so on from each run |
| JobTimes.NamesExactly | pawlia/automation.py:551-586 | the days of a schedule, told from its text, with weekdays counted from Monday, 1 January 2024 |
| JobTimes.FileOnTime | pawlia/automation.py:532-586 | on such a day a job for hour:minute that was last run before then runs exactly once, at the first poll from hour:minute on that is more than 120 seconds after the last run; without a last run only within 120 seconds |
| JobTimes.NotToday | pawlia/automation.py:443-586 | on the other days, switched off or with nothing to run, it does not run |
| JobTimes.ForcedRun | pawlia/automation.py:443-517 | a run that is asked for comes with the next poll, whatever the schedule, and clears the request |
| JobTimes.ReachesExactly | pawlia/automation.py:541-549 | which intervals can be waited for, in numbers |
| Chunker.ChunkText | pawlia/rag_backend.py:338-352 | the loop computes the recursive grouping |
| Chunker.NothingLostAtAll | pawlia/rag_backend.py:338-352 | without the repeated paragraphs the chunks are the paragraph list, and each chunk repeats exactly the last paragraph before it |
| ChunkLaws.PiecesJoined | pawlia/rag_backend.py:339-339 | the pieces, with the empty lines put back, are the text |
| ChunkLaws.PiecesCut | pawlia/rag_backend.py:339-339 | and they are cut at every empty line, from the left |
| ChunkLaws.ParagraphsHold | pawlia/rag_backend.py:339-339 | the paragraphs hold in order all that is written in the text, and none begins or ends with white space |
| ChunkLaws.GroupsExactly | pawlia/rag_backend.py:340-351 | the chunks are the paragraphs in order, each after the last paragraph of the one before; a chunk is closed only when the next paragraph does not fit into 800 characters, and holds at least one new one |
| ChunkLaws.GroupsOnly | pawlia/rag_backend.py:340-351 | and there is no other way to do so |
| ChunkLaws.BlankExactly | pawlia/rag_backend.py:352-352 | without paragraphs the only chunk is the first 800 characters of the text |
| Chunker.LongChunk | pawlia/rag_backend.py:338-352 | a chunk has more than 800 characters and more than two paragraphs if and only if its paragraphs fit in 800 and the blank lines between them do not |
| Chunker.BlankChunk | pawlia/rag_backend.py:352 | a text without paragraphs is one chunk of at most 800 characters |
| Chunker.OverlongChunk | pawlia/rag_backend.py:338-352 | every text of three paragraphs of together 797 to 800 characters is one chunk of more than 800 |
| Chunker.OverlongLetters | pawlia/rag_backend.py:338-352 | such a text of 803 characters |
| VectorBackend.SimpleVectorBackend.Insert | pawlia/rag_backend.py:414-439 | the whole state after an insertion, a failed embedding, vectors that make no array, vectors of another length, or a removal that fails half-way, also from a state that such a failure left |
| VectorIndex.AddRows | pawlia/rag_backend.py:429-435 | while the vectors stack, the lists stay in step and grow by the new rows |
| VectorIndex.StacksExactly | pawlia/rag_backend.py:429-435 | vectors stack if and only if those used have the length that the index has or, when it is empty, that of the first |
| VectorIndex.AddBroken | pawlia/rag_backend.py:429-435 | a vector of another length among those used leaves a chunk without a vector |
| VectorBackend.InsertedRows | pawlia/rag_backend.py:414-439 | an insertion leaves other documents as they were and its own with the chunks of the new text, or none when embedding failed |
| VectorBackend.OutcomeExactly | pawlia/rag_backend.py:356-439 | which outcome an insertion has, told from the index and the answer of the service; vectors of unequal lengths are a failed embedding |
| VectorBackend.SoundExactly | pawlia/rag_backend.py:356-439 | lists in step and indexed ids equal to ids present are kept if and only if embedding failed, or it gave at least one vector and, where other documents have entries, vectors of their length |
| VectorBackend.Breaks | pawlia/rag_backend.py:414-439 | an index of one entry that a longer vector breaks, and so does an answer without vectors |
| VectorBackend.BrokenRemoval | pawlia/rag_backend.py:419-424 | once broken so, indexing another known document again fails |
| VectorBackend.RunIsMap | pawlia/rag_backend.py:309-439 | over any run of insertions, failed embeddings and restarts the index is a map from documents to the chunks of their latest text |
| VectorBackend.RestartShowsSaved | pawlia/rag_backend.py:309-334 | a restart brings back the index as it was after the last successful insertion, whenever it comes |
| VectorBackend.ServedEntries | pawlia/rag_backend.py:429-433 | the entries of a text are all its chunks, numbered from 0, each with its vector |
| VectorBackend.SavedLoaded | pawlia/rag_backend.py:309-334 | a sound index with entries is read back as saved |
| VectorBackend.EmptyLoaded | pawlia/rag_backend.py:324-334 | an empty one is, exactly when there is no vector file from before |

## Left out

- Provider calls, HTTP, subprocesses, config loading, logging and the chat, Matrix, Telegram and web interfaces: input and output only.
- classify_error: error texts are abstracted to a category each; context overflow is neither retryable nor counted against a model.
- Streaming and asynchronous twins of the fallback chain (`ainvoke`, `astream`): the same loop as `invoke`; one caller at a time.
- The text given to the summary model and the wording of synthetic tool notices: parameters.
- Message contents made of several parts: contents are texts.
- Signal analysis (spectral flatness, voice activity detection, gain, noise floor): one boolean or number per frame; seconds are reals, without floating-point rounding.
- The minimum speech length and the transcription of a finished chunk (`_finalize_speech_chunk`): a chunk is only handed over.
- Hold loops under 960 samples: their frames may be short, as `NextFrame` says.
- DayLogRuns.UpsertHistories: speaks of logs in the current format; old-format sections are modelled by `Upsert` and `ThreadHistory`, without laws about their migration.
- DayLogMain.AppendHistories: as above; the log must not begin with a section, see `AppendExactly`.
- Topic headings inserted into a log.
- ExchangeRoundTrip.RoundTrip: tool calls are their JSON texts and decoding is a parameter; a comment nested inside the JSON of another call is excluded by `Unnested`, which JSON itself rules out by its quotes, but the JSON grammar is not modelled.
- Streaming.Stream: promises nothing about what is spoken for text with thought, tool or template tags; which characters are of words is a parameter.
- The digits of a time stamp are those of ASCII.
- ReminderFiles.Scheduler.Tick: reading a time (`datetime.fromisoformat`) and `str.lower` are parameters with the properties of `ReaderOk`; `ReaderExists` shows that they can be met. Times of years before 1000 or a clock in year 9999, and changes to the files by others during a tick, are not modelled.
- Event files whose start cannot be read, and job files that change between polls other than by a forced run.
- RRULE INTERVAL and COUNT, the text form of rules, and time zones: all moments are local.
- Reminders of an event whose minutes are infinite.
- Cron schedules.
- Failing writes of the scheduler state and of job files.
- Cosine search over the vectors, BM25, `MarkdownTopicBackend` and LightRAG: the index only.
- `radicale/picoclaw_storage.py`, `pawlia/dream_wiki.py`, the background task queue and session settings: library-bound or without state of their own.
