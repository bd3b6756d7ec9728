# Verification of laya-rs

A Dafny model of the parts of laya-rs that hold state, loops or arithmetic outside the neural
network, with proofs of what they promise. The source cells below are relative to the repository.

- **Admission** (`Admission*.dfy`). Requests, permits, the fair semaphore's line, the session
  pool, the task set, its driver and the clock form a step system: `Admission.Next` has one event
  for each region that the scheduler runs under its lock, for each permit that is assigned or
  dropped, and for each panic, cancellation, close and poll. `AdmissionSafety` states the
  invariant, `AdmissionSteps` proves it event by event, `AdmissionRuns` draws the theorems about
  whole runs, `AdmissionCauses`, `AdmissionAnswers` and `AdmissionDrain` say why requests end as they do, what
  their callers are answered, and that a closed scheduler can always be drained, and `AdmissionState` holds the records that are changed in place.
- **Shutdown** (`Shutdown*.dfy`). `serve` and `drain` as a machine on top of the scheduler, in
  which every scheduler event may come at any time.
- **JSON** (`Json*.dfy`, `Decimal.dfy`). Raw documents with repeated keys and strings that may not
  decode; folding; validation and printing as stack machines. `JsonReader` is a reader for RFC 8259
  that knows nothing of the printer; the round trip connects the two. `JsonMeaning` and
  `JsonLayout` say what a dump means and how it is laid out. `Decimal` gives number texts their
  rational values.
- **Requests** (`RequestModel.dfy`, `RequestAcceptance.dfy`, `RequestContents.dfy`). Parsing and limits, from
  a raw document to a normalised request; exactly which documents pass, and what comes of them.
- **Sequences and batches** (`Sequence*.dfy`, `Batch.dfy`, `RequestBatch.dfy`, `RequestTexts.dfy`). `Sequence.RowOf`
  is the signed specification of a row; `SequenceBuilder` saturates and stops early. The tokenizer is any
  function from text to tokens that may fail.
- **Post-processing** (`PairwiseSum.dfy`, `Rounding.dfy`, `Postprocess.dfy`, `ExactSoftmax.dfy`).
  The binary32 operations are parameters, so the results about padding, choice, shapes and order of
  addition hold however they round. `ExactSoftmax` says what the same passes compute if nothing
  rounds.
- **Deployment** (`Deployment*.dfy`). Both scripts as rows of small steps on a world of files and
  one process. A step may fail, the server may die after it, and the script may be killed between
  any two. The set `passed` in a world is history: the configurations that were validated.
- **Quoting** (`QuoteArgument.dfy`). `Quote-Argument` against the argument rules of the Microsoft
  C runtime.

Values are immutable where the source computes values. Where it changes fields, vectors or files
step by step there is a class or a method with a loop, proved against the function that specifies
it; what the source promises is proved about that function.

## Where the code does less than one might expect

- `Quote-Argument` doubles the backslashes before a newline that ends the value, because `$` also
  matches there. `QuoteArgument.ReadsBackExactly` gives the exact condition; the arguments that
  the script passes hold no newline.
- The first install on macOS does not validate. `DeploymentVouched` says exactly when a command,
  or a history of commands, makes a configuration current that never passed validation; it is
  never the case under the Windows script.
- A switch that fails after it has committed, while it removes the record, is taken back by the
  next recovery: the record decides, not the commit (`DeploymentTransaction.CommitTakenBack`).

## Model

| member | source | states |
|---|---|---|
| `AdmissionSteps.StepInv` | src/scheduler.rs:273-457 | every region that runs under the lock or in a drop, in any order, keeps the invariant of counters, queue, jobs and driver |
| `AdmissionSteps.PoolNotEmpty` | src/scheduler.rs:177-190 | a spawned task that has not begun finds a Session in the pool |
| `AdmissionRuns.RunInv` | src/scheduler.rs:273-457 | the invariant holds in every state of every run |
| `AdmissionRuns.Conservation` | src/scheduler.rs:321-457 | free permits and permits handed out add up to the slots; `waiting` is the number of queued entries, at most the capacity; `inflight` is the number of live guards, at most the permits held; Sessions are conserved |
| `AdmissionRuns.SessionAlwaysFound` | src/scheduler.rs:178-191 | in every interleaving, panics included, a task that begins finds a Session: the unavailable branch is never taken and admission is not closed by it |
| `AdmissionRuns.NoStrandedPermit` | src/scheduler.rs:321-362 | no permit is free while a request is registered for one |
| `AdmissionRuns.NoBarging` | src/scheduler.rs:321-362 | a request that is not ahead of a registered one gets neither permit nor task while that one is registered, whoever leaves the line |
| `AdmissionRuns.WorkedAtMostOnce` | src/scheduler.rs:364-391 | work begins at most once per request |
| `AdmissionRuns.OutcomeIsFinal` | src/scheduler.rs:392-400 | an outcome is never replaced, however late the task ends |
| `AdmissionRuns.RefusedNeverWorks` | src/scheduler.rs:332-361 | a request refused, timed out or cancelled in the queue is never worked on |
| `AdmissionRuns.OnTime` | src/scheduler.rs:392-432 | a queued request starts strictly before its queue deadline; a success is returned only before the execution deadline; a timeout in execution is reported exactly from that deadline on |
| `AdmissionCauses.EveryOutcomeHasCause` | src/scheduler.rs:332-400 | every outcome has its cause at the event that decides it: a full queue with no permit free, a queue deadline reached, admission closed or a deadline beyond the clock, or what task and clock say |
| `AdmissionCauses.StepHasCause` | src/scheduler.rs:332-400 | the event at which a request leaves decides its outcome for its cause |
| `AdmissionCauses.TimedOutIsLate` | src/scheduler.rs:337-339 | a request that timed out in the queue had a queue deadline, and it has passed |
| `AdmissionCauses.QueueFullExactly` | src/scheduler.rs:345-349 | a poll answers "queue full" if and only if it is the first, no permit is free and the queue is at its capacity |
| `AdmissionAnswers.AnswerIsTheWork` | src/scheduler.rs:377-400 | before its execution deadline a caller is served, told of an inference failure, or told that the task failed, if and only if its work returned a result, returned an error, or panicked; from the deadline on it is told of the timeout |
| `AdmissionAnswers.FateIsHistory` | src/scheduler.rs:177-195 | in every reachable state the way a task ended is the one event in which its work ended |
| `AdmissionAnswers.StepFate` | src/scheduler.rs:377-387 | only the end of the work decides how a task ended, never the steps behind it |
| `AdmissionAnswers.PanicIsFailure` | src/scheduler.rs:284-296 | a joined task is a panic to the driver if and only if its work panicked |
| `AdmissionAnswers.PollExactly` | src/scheduler.rs:332-361 | one poll, answer by answer: exactly when it admits, leaves waiting, times out or is unavailable |
| `AdmissionAnswers.SpawnExactly` | src/scheduler.rs:372-391 | a task is spawned if and only if admission is open, and the caller is refused otherwise |
| `AdmissionAnswers.LimitIsFromPoll` | src/scheduler.rs:350-355 | the queue deadline is the clock of the poll that queued the request, plus the queue timeout |
| `AdmissionAnswers.StartIsFromPoll` | src/scheduler.rs:416-432 | the execution starts at the clock that the admitting poll read |
| `AdmissionRuns.ClosedForGood` | src/scheduler.rs:312-319 | admission never reopens, and nothing is spawned after it has closed |
| `AdmissionRuns.RunReturnsDrained` | src/scheduler.rs:273-298 | once `run` has returned, every task ever spawned has been joined, and that stays so |
| `AdmissionRuns.PanicIsReported` | src/scheduler.rs:284-296 | after a panic was joined, an error is stored, or about to be, or some `run` returned an error when that panic had been joined |
| `AdmissionRuns.FirstPanicIsTheError` | src/scheduler.rs:289-296 | the first panic that is joined is the error: it stays on its way until a `run` returns exactly that one |
| `AdmissionRuns.FirstErrorSurvives` | src/scheduler.rs:289-296 | the first error is kept through later panics and dropped `run` futures until a `run` returns it |
| `AdmissionRuns.NoLostWakeup` | src/scheduler.rs:275-282 | a sleeping driver with something to join, or with nothing left after closing, has a wakeup pending |
| `AdmissionRuns.NeverStuck` | src/scheduler.rs:377-391 | the next step of every task that has not ended is enabled and brings it closer to being joined |
| `AdmissionDrain.CanDrain` | src/scheduler.rs:273-298 | from every consistent closed state some finite sequence of enabled events ends with `run` returned and every task joined |
| `AdmissionDrain.ReachableDrains` | src/scheduler.rs:312-319 | so it is in every reachable state with admission closed: nothing that happened before can block the drain |
| `AdmissionState.EnabledIsBacked` | src/scheduler.rs:409-457 | no decrement of `waiting` or `inflight` can underflow |
| `AdmissionState.Scheduler.Step` | src/scheduler.rs:273-457 | one region changes the records in place to the successor state and keeps the invariant |
| `AdmissionState.Scheduler.Close` | src/scheduler.rs:312-319 | closing stops admission, empties the line and wakes the driver |
| `AdmissionState.Scheduler.PollAcquireOnce` | src/scheduler.rs:332-361 | one poll of `acquire`: refuse, time out, take a permit or wait |
| `AdmissionState.Scheduler.Wait` | src/scheduler.rs:345-358 | a poll without a permit registers, and is turned away if the queue is full |
| `AdmissionState.Scheduler.StartWork` | src/scheduler.rs:410-433 | `start` refuses at the deadline, else moves the entry from `waiting` to `inflight` |
| `AdmissionState.Scheduler.DropPermit` | src/scheduler.rs:404-448 | a dropped waiter leaves the line; a dropped permit goes to the head of the line or becomes free |
| `AdmissionState.Scheduler.DropWaiting` | src/scheduler.rs:436-442 | a dropped entry gives back its place in the queue |
| `AdmissionState.Scheduler.SpawnTask` | src/scheduler.rs:372-391 | the spawn happens only while admission is open, and wakes the driver |
| `AdmissionState.Scheduler.PopSession` | src/scheduler.rs:177-182 | a task takes a Session, or closes admission |
| `AdmissionState.Scheduler.PushSession` | src/scheduler.rs:190-191 | the Session is put back before the permit is freed |
| `AdmissionState.Scheduler.DropRunning` | src/scheduler.rs:450-457 | the guard takes itself off `inflight` |
| `AdmissionState.Scheduler.SettleCaller` | src/scheduler.rs:392-400 | the outcome of a request, by clock and channel |
| `AdmissionState.Scheduler.PollTasks` | src/scheduler.rs:275-283 | one poll of the task set stores the waker and joins, sleeps or returns |
| `AdmissionState.Scheduler.StoreFailure` | src/scheduler.rs:289-294 | a panic closes admission, and the first one is kept |
| `Shutdown.ServiceStep` | src/server.rs:61-77 | every step of `serve`, `drain` and the scheduler under them keeps the service invariant |
| `Shutdown.ServiceRunInv` | src/server.rs:61-176 | the service invariant holds in every state of every run |
| `Shutdown.ServeOkMeansClean` | src/server.rs:150-169 | `serve` returns Ok only with admission closed and every task joined without a panic; HTTP is told to stop only when nothing is left to join |
| `Shutdown.ResultKept` | src/server.rs:61-68 | the branch that ended the wait decides the result for good |
| `Shutdown.ServeOkExactly` | src/server.rs:61-77 | `serve` returns Ok if and only if a notification ended the wait, no task panicked and HTTP did not fail |
| `Shutdown.ServeVerdict` | src/server.rs:61-77 | which failure is returned: a panic from the drain, then HTTP, then what ended the wait |
| `ShutdownState.Server.Step` | src/server.rs:61-176 | the flags and the scheduler move on in place, as the step system says |
| `ShutdownState.Server.EndWait` | src/server.rs:61-68 | the completed branch of the wait sets the result, and the losing `run` is dropped |
| `ShutdownState.Server.StopHttp` | src/server.rs:151-157 | HTTP is told to stop when `run` has returned |
| `ShutdownState.Server.Join` | src/server.rs:158-170 | the first failure among owner, HTTP and wait is the verdict |
| `Json.FirstKeys` | src/system_one/json.rs:45-56 | exactly the given keys, each once |
| `Json.KeysInOrder` | src/system_one/json.rs:45-56 | keys keep the order of their first occurrence |
| `Json.CollapseMeans` | src/system_one/json.rs:42-59 | folding keeps every key once, in first-occurrence order, with its last value |
| `JsonMachine.View` | src/system_one/json.rs:42-59 | the loop over position map and vector computes the folded object |
| `JsonMachine.Validate` | src/system_one/json.rs:99-119 | the stack machine finds the same first fault as a right-to-left walk of the document |
| `JsonMachine.CheckDecides` | src/system_one/json.rs:99-119 | a document passes exactly if every string decodes and no container lies too deep, overwritten values included; each error names a real fault |
| `JsonMachine.DecodedIsEffective` | src/system_one/json.rs:99-142 | a validated document can always be rendered |
| `JsonPrinter.DumpArray` | src/system_one/json.rs:156-165 | item by item, an array dumps to the printed tree in effect |
| `JsonPrinter.DumpObject` | src/system_one/json.rs:166-177 | member by member, the folded object dumps to the printed tree in effect, and fails exactly if that has no value |
| `JsonPrinter.Render` | src/system_one/json.rs:127-142 | the stack machine with reversed pushes writes the recursive, ordered dump |
| `JsonPrinter.Printer.AppendValue` | src/system_one/json.rs:144-180 | one value is written, or pushed in pieces that will write it |
| `JsonPrinter.Printer.AppendItems` | src/system_one/json.rs:156-165 | the pushed pieces of an array will write its items in order, with separators |
| `JsonPrinter.Printer.AppendMembers` | src/system_one/json.rs:166-177 | the pushed pieces of an object will write its members in order, with separators |
| `JsonPrinter.Printer.Quote` | src/system_one/json.rs:182-202 | the quoted text is appended |
| `JsonPrinter.Printer.AppendDecimal` | src/system_one/json.rs:237-261 | the decimal text is appended, all slices in range |
| `JsonPrinter.Printer.AppendFloat` | src/system_one/json.rs:204-235 | the float text is appended |
| `JsonRoundTrip.QuotedReads` | src/system_one/json.rs:182-202 | in both modes a quoted string reads back as itself, surrogate pairs included |
| `JsonRoundTrip.PrintReads` | src/system_one/json.rs:144-180 | a printed value reads back as itself, and what follows it is left |
| `JsonRoundTrip.RenderedReads` | src/system_one/json.rs:127-142 | reading a rendered document gives the folded tree; rendering fails exactly if a string in effect does not decode |
| `JsonRoundTrip.RenderedIsPlain` | src/system_one/json.rs:182-202 | in ASCII mode the output holds only characters 0x20 to 0x7e |
| `JsonRoundTrip.EscapeExactly` | src/system_one/json.rs:184-200 | how each character is written: the short escapes, lower-case code units, or the character itself |
| `JsonMeaning.RenderedSays` | src/system_one/json.rs:127-180 | what is read back from a rendered document says what the document says: each scalar, numbers with value and sign, and each key with its last value in first-occurrence order; a string at the root is passed on |
| `JsonMeaning.EffectiveSays` | src/system_one/json.rs:42-73 | the folded tree says what stands last in the document |
| `JsonLayout.RenderedIsSpaced` | src/system_one/json.rs:156-177 | outside strings each comma and colon is followed by exactly one space, and there is no other white space |
| `Json.IntegerTextValue` | src/system_one/json.rs:153-153 | an integer is printed with its value, and never as minus zero |
| `Decimal.FloatTextValue` | src/system_one/json.rs:222-261 | the rewritten text denotes the same rational; it is fixed notation exactly from 10^-4 up to, and not including, 10^16 |
| `Decimal.FloatTextDenotes` | src/system_one/json.rs:204-235 | read with its sign, the text of a float denotes the float, zero and the infinities included, and begins with a minus exactly if the float is negative |
| `Decimal.FloatTextShape` | src/system_one/json.rs:237-261 | fixed notation has digits on both sides of the point; the other has one nonzero lead digit, no trailing zero and a signed exponent of at least two digits |
| `Decimal.DecimalTextValue` | src/system_one/json.rs:237-261 | the text of digits and exponent denotes digits times the power of ten |
| `Decimal.FloatTextIsNumber` | src/system_one/json.rs:204-235 | every float text is made of number characters and starts like a number |
| `RequestModel.AcceptedIsInEffect` | src/system_one.rs:146-170 | an accepted request holds the last "state" and, each once and in first-occurrence order with its last value, the members of the last "questions" |
| `RequestAcceptance.AcceptedExactly` | src/system_one.rs:146-208 | a body is accepted if and only if it is short enough, decodes throughout, is not too deep, has a state, and has 1 to max questions in effect that are all well posed |
| `RequestAcceptance.QuestionParsesExactly` | src/system_one.rs:185-208 | a value parses as a question if and only if it has in effect a known type, instructions, and criteria of the shape and size that the type demands |
| `RequestAcceptance.ChoiceExactly` | src/system_one.rs:310-336 | Choice criteria are accepted exactly as texts of which 2 to max differ, or as 2 to max keys each with null or a text in effect |
| `RequestAcceptance.CriteriaExactly` | src/system_one.rs:192-203 | criteria fit exactly by type: Choice, Score texts with repetitions counted, or for Noul absent or an object whose known members are texts |
| `RequestContents.QuestionContents` | src/system_one.rs:185-208 | an accepted question holds the instructions in effect and the criteria in effect: Choice texts at their first places or keys with their descriptions, Score texts, Noul texts or the fixed ones |
| `RequestContents.AcceptedContents` | src/system_one.rs:146-170 | so does every question of an accepted request, under its name in the last "questions" |
| `RequestContents.ChoiceContents` | src/system_one.rs:310-336 | the options of an array are its texts once each in order; those of an object its keys with the description in effect |
| `RequestContents.RefusedExactly` | src/system_one.rs:149-156 | a body is too large exactly beyond the limit, and a document that does not decode or is too deep is refused before all else |
| `RequestModel.AcceptedIsNormalised` | src/system_one.rs:146-208 | 1 to max questions with distinct names, 2 to max options each after folding, distinct Choice keys, and texts that decode |
| `RequestModel.AcceptedRenders` | src/system_one.rs:139-183 | the texts of an accepted request always render |
| `RequestModel.ChoiceKeysUnique` | src/system_one.rs:310-336 | Choice keys are distinct, from an array or from an object |
| `RequestModel.FilterSeen` | src/system_one.rs:312-323 | filtering with a set of seen keys keeps each key at its first position |
| `SequenceBuilder.SumLengths` | src/sequence.rs:255-259 | the sum of the lengths, or overflow exactly if it exceeds the machine word |
| `SequenceBuilder.SignedShare` | src/sequence.rs:193-196 | the saturating share equals max(4, floor((head-16)/k)) of signed arithmetic |
| `SequenceBuilder.Parts.TruncateHead` | src/sequence.rs:191-203 | options and header are cut in place as the signed specification says |
| `SequenceBuilder.Parts.CutEach` | src/sequence.rs:197-199 | every option is cut to the share |
| `Sequence.HeadBudget` | src/sequence.rs:191-203 | after the cut, header and options take at most max(head budget, 4k+8) tokens |
| `Sequence.HeaderKept` | src/sequence.rs:201-202 | the header is cut at its end, to the larger of eight and what the options leave of the budget, and only if it is longer |
| `Sequence.OptionsKept` | src/sequence.rs:192-200 | options are left alone if they leave sixteen tokens, else each is cut at its end to the share |
| `Sequence.ShareIs` | src/sequence.rs:194-196 | the share is four, or the largest with which all options fit beside sixteen tokens |
| `Sequence.RowLayout` | src/sequence.rs:219-245 | a row is CLS, header, SEP, options, SEP, as much of the state as fits, SEP, cut to the model length, with a marker at the start of each option |
| `Sequence.FittingHeadStands` | src/sequence.rs:191-246 | a header and options that fit the budget stand whole in the row |
| `Sequence.LostExactly` | src/sequence.rs:226-232 | a marker is lost exactly if the last option would start at or behind the end; otherwise all markers are kept |
| `Sequence.RowKeepsEveryOption` | src/sequence.rs:205-246 | for every budget an accepted row has one marker per option, strictly increasing, each at a MASK token, and fits the model |
| `Sequence.RoomyRow` | src/sequence.rs:205-246 | with max_len at least max(head budget, 4k+8)+4 nothing is lost: the last cut removes nothing, the row ends in SEP, the state takes the room left |
| `Sequence.CheckpointBudgetsAreRoomy` | src/sequence.rs:205-246 | budgets 1024 and 256 never lose a marker with up to 253 options |
| `Sequence.TightBudgetLoses` | src/sequence.rs:228-230 | outside that bound a row can lose a marker |
| `SequenceBuilder.OverflowIsRemote` | src/sequence.rs:205-222 | the size checks never fire for lengths that fit in memory |
| `SequenceBuilder.OverflowsExactly` | src/sequence.rs:208-222 | a size check fires exactly if all options, or the whole row, exceed the machine word |
| `SequenceBuilder.Builder.PushOptions` | src/sequence.rs:223-232 | the pushing loop stops early exactly if a marker would be lost, else appends all options and their starts |
| `SequenceBuilder.Builder.Build` | src/sequence.rs:205-246 | for all budgets and inputs the saturating code returns the row of the signed specification, or overflow exactly if a checked length overflows |
| `Batch.Collate` | src/sequence.rs:275-314 | the batch of the specification, overflow exactly if a buffer is too large, an error for no rows |
| `Batch.CopyInto` | src/sequence.rs:303-308 | a slice write changes its range and nothing else |
| `Batch.WriteRow` | src/sequence.rs:300-308 | writing row i keeps the rows before it and the padding behind it |
| `Batch.Buffers.Put` | src/sequence.rs:299-312 | one row goes into all buffers; the token count cannot overflow |
| `Batch.Shapes` | src/sequence.rs:267-273 | all four ranges of every row lie in the buffers |
| `Batch.BatchLosesNothing` | src/sequence.rs:275-314 | reading a row of the batch under its masks gives the row that went in |
| `Batch.RowsArePadded` | src/sequence.rs:290-308 | each buffer row holds its values and behind them only its padding |
| `Batch.WidthsAreLeast` | src/sequence.rs:275-289 | the widths are those of the longest rows, and a batch overflows exactly if a buffer would be too large |
| `Batch.UsageIsMaskSum` | src/sequence.rs:309-313 | the token usage is the sum of the attention mask |
| `Batch.SlotsPointAtMasks` | src/sequence.rs:223-232 | a slot is marked exactly for a real option, and then addresses an attended MASK token of its own row |
| `RequestBatch.Build` | src/sequence.rs:149-180 | the batch of a request: texts, tokens, rows, buffers, or the first failure |
| `RequestBatch.EncodeOptions` | src/sequence.rs:167-176 | each option is MASK and at most 48 tokens |
| `RequestBatch.LevelTextsDiffer` | src/system_one.rs:256-260 | Score options have texts of their own, also where descriptions repeat |
| `RequestBatch.BatchFitsRequest` | src/sequence.rs:149-180 | a built batch has a row per question and a slot per option of the largest question; exactly the options of each question are marked, at MASK tokens |
| `RequestBatch.AcceptedRequestBuilds` | src/sequence.rs:149-180 | with roomy budgets and a tokenizer that does not fail, every accepted request becomes a batch |
| `RequestTexts.BatchEncodes` | src/sequence.rs:149-180 | row i of a batch holds the tokens of the texts of question i: type and instructions, each option text behind MASK, and the state |
| `RequestTexts.OptionsEncodeTexts` | src/system_one.rs:244-268 | option i is MASK and the first 48 tokens of a space and its text, key and description, level, or false and true |
| `PairwiseSum.NumpySum` | src/postprocess.rs:230-249 | for every addition, the blocked code evaluates the addition tree of its slice |
| `PairwiseSum.Lanes` | src/postprocess.rs:240-245 | eight lanes hold the sums of every eighth value |
| `PairwiseSum.EachIndexOnce` | src/postprocess.rs:230-249 | the tree adds every index of the slice exactly once and no other |
| `PairwiseSum.OrderIsNumPys` | src/postprocess.rs:230-249 | the order of additions: left to right below eight, eight lanes joined in neighbouring pairs up to 128, halves at a multiple of eight beyond |
| `PairwiseSum.LaneOrder` | src/postprocess.rs:240-245 | a lane adds its values from left to right in steps of eight |
| `PairwiseSum.EvalIsWeighted` | src/postprocess.rs:230-249 | over the reals a tree depends only on how often it uses each index |
| `PairwiseSum.PairwiseIsPlain` | src/postprocess.rs:230-249 | without rounding the result is the plain sum |
| `PairwiseSum.DepthIsLogarithmic` | src/postprocess.rs:231-235 | no value passes through more than 24+L additions for up to 112*2^L+16 values |
| `PairwiseSum.DepthIsSharp` | src/postprocess.rs:236-248 | 127 values do need 24 additions in a row |
| `Rounding.NearestExactly` | src/postprocess.rs:216-221 | the rounded integer is the only one within a half that is even on a tie |
| `Rounding.Round4Means` | src/postprocess.rs:216-221 | four-place rounding is off by at most 0.00005, monotone, odd and idempotent |
| `Rounding.Round4Closest` | src/postprocess.rs:216-221 | no other four-place decimal is closer |
| `Postprocess.SharedOverride` | src/postprocess.rs:101-119 | two questions share a temperature override exactly if type and bucket (up to 2, 3-5, 6-10, 11 and more) agree |
| `Postprocess.TemperatureChosen` | src/postprocess.rs:101-119 | an override is taken where there is one for type and bucket, else the temperature of the type |
| `Postprocess.DistributionExactly` | src/postprocess.rs:202-214 | a distribution is accepted exactly if it is finite, within 0 and 1, and sums to 1 up to 0.00011 |
| `Postprocess.PaddingIgnored` | src/postprocess.rs:122-130 | finite padding does not change the probabilities |
| `Postprocess.Probabilities` | src/postprocess.rs:122-150 | the checks and in-place passes compute the softmax of the real options, or the first error |
| `Postprocess.SoftmaxInPlace` | src/postprocess.rs:136-150 | scale, shift, exponentiate, sum and divide, each pass over the whole vector |
| `Postprocess.SoftmaxPasses` | src/postprocess.rs:136-150 | whatever the machine rounds: scaled, shifted by the largest, exponentiated, and divided by the pairwise sum |
| `Postprocess.BatchShapePasses` | src/postprocess.rs:186-193 | outputs with the shape of the batch built for the request are never refused for their shape |
| `Postprocess.ShapeExactly` | src/postprocess.rs:186-193 | outputs pass exactly with one row per question, a column per slot, and finite values |
| `Postprocess.ResponseExactly` | src/postprocess.rs:155-183 | there is a response if and only if the shapes are right and every row can be answered |
| `Postprocess.OtherRowsIrrelevant` | src/postprocess.rs:171-182 | accepted outputs that agree on the places of question i give it the same answer, whatever the other rows hold |
| `Postprocess.PaddingIrrelevant` | src/postprocess.rs:155-183 | outputs that agree on the action values and at i k + j for every real option give the same response or error |
| `Postprocess.BestIndex` | src/postprocess.rs:254-259 | the first index of the largest probability |
| `Postprocess.FirstMaxIs` | src/postprocess.rs:254-259 | the best index is a maximum, and strictly above every earlier one |
| `Postprocess.ChoiceIsFirstMax` | src/postprocess.rs:254-265 | the choice is the first option of the largest unrounded probability, and no option is reported above it |
| `Postprocess.RoundedReports` | src/postprocess.rs:291-298 | reported probabilities are within 0.00005 each, within k*0.00005 in sum, and in the same order |
| `Postprocess.ScoreInRange` | src/postprocess.rs:266-274 | the score is the expected index within 0.00005, from 0 to k-1 within the tolerance |
| `Postprocess.ExpectedIsTails` | src/postprocess.rs:267-272 | the expected index is the sum of the chances of reaching 1, 2 and so on |
| `Postprocess.AnswerIsFaithful` | src/postprocess.rs:251-289 | every kind of answer reports its distribution faithfully |
| `Postprocess.ResponseIsFaithful` | src/postprocess.rs:155-183 | a response answers every question in request order, question i from logits i k to i k + k and action values 2 i and 2 i + 1 alone |
| `Postprocess.AnswerQuestion` | src/postprocess.rs:251-289 | the answer of a question from its probabilities, or the first error |
| `Postprocess.Respond` | src/postprocess.rs:155-183 | the response of the specification, or the first error in request order |
| `ExactSoftmax.ExactProbabilities` | src/postprocess.rs:136-150 | without rounding: the softmax at the temperature, positive, summing to one, in the order of the logits; the choice is the first largest logit |
| `ExactSoftmax.IsSoftmax` | src/postprocess.rs:138-141 | subtracting the maximum does not change the result |
| `ExactSoftmax.QuotientsAreDistribution` | src/postprocess.rs:146-149 | positive values over their sum are a distribution that sums to one |
| `DeploymentSafety.RunFollows` | scripts/laya.ps1:528-562 | a row of steps that may fail follows every outline that each step leads along |
| `DeploymentSafety.RestoreStep` | scripts/laya.ps1:528-539 | each step of a recovery leads to the next, or fails with the record intact |
| `DeploymentSafety.RestoreKeeps` | scripts/laya.ps1:528-539 | a recovery holds the record until its last step and completes only by restoring the old version |
| `DeploymentSafety.SwitchStep` | scripts/laya.ps1:541-562 | each step of a switch leads to the next, or fails with the record intact |
| `DeploymentSafety.SwitchIsAtomic` | scripts/laya.ps1:541-562 | at every moment of a switch the disk holds the old configuration, or the record with it, or the validated new one; a switch ends well exactly by committing |
| `DeploymentSafety.AttemptsHold` | scripts/laya.ps1:591-595 | any number of interrupted recoveries leave the record as it was, or have restored the old version |
| `DeploymentSafety.CommandIsSafe` | scripts/laya.ps1:591-618 | every step of every command keeps the deployment safe |
| `DeploymentSafety.HistoryIsSafe` | scripts/laya.ps1:586-624 | so does every history of commands, crashes and server deaths; without a record only the current configuration runs |
| `DeploymentVouched.CommandVouchedExactly` | scripts/laya.ps1:523-562 | in given weather every configuration that a command makes current was validated, if and only if the command does not write an unvalidated one |
| `DeploymentVouched.AlwaysVouchedExactly` | scripts/laya-macos.sh:283-298 | whatever the weather: if and only if the plan does not place a configuration that never passed, which can be seen beforehand |
| `DeploymentVouched.OverclaimIsFirstInstall` | scripts/laya-macos.sh:283-298 | that is an install on macOS without record or current configuration, of one not validated before, and nothing else |
| `DeploymentVouched.HistoryVouchedExactly` | scripts/laya.ps1:586-624 | all through a history every current configuration was validated, if and only if no episode writes one that was not |
| `DeploymentVouched.HistoryIsVouched` | scripts/laya-macos.sh:283-298 | a caller who gives no such install where it would count keeps every current configuration validated |
| `DeploymentVouched.WindowsIsVouched` | scripts/laya.ps1:541-562 | under the Windows script every current configuration was validated, without any condition |
| `DeploymentVouched.FirstInstallOnMacOS` | scripts/laya-macos.sh:296-296 | the witness: a first install that becomes current without validation |
| `DeploymentTransaction.RecoveryCompletes` | scripts/laya.ps1:528-539 | after any number of interrupted recoveries, one in which every step works restores configuration and running state and removes the record |
| `DeploymentTransaction.CalmRestore` | scripts/laya.ps1:531-533 | a recovery that completes while the server does not die leaves it running exactly if it ran before |
| `DeploymentTransaction.SwitchIsTransaction` | scripts/laya.ps1:541-562 | a switch killed anywhere, then any recoveries: settled on the old or the new version, or one good recovery away from exactly the state before |
| `DeploymentTransaction.SettledKeepsRunning` | scripts/laya.ps1:544-547 | whatever it settled on, the version that is current then runs exactly if one ran before the switch, unless the server died by itself |
| `DeploymentTransaction.CommittedKeepsRunning` | scripts/laya.ps1:541-562 | a switch that ends well leaves the new version running exactly if the old one ran |
| `DeploymentTransaction.UpdateCommits` | scripts/laya.ps1:564-588 | an update that ends well leaves the new release under the old settings, validated, running as before, with the old one kept |
| `DeploymentTransaction.CommitTakenBack` | scripts/laya-macos.sh:472-478 | where only the removal of the record fails, the committed configuration is current beside the record, and the next good recovery takes it back |
| `DeploymentTransaction.LateFailureIsHeld` | scripts/laya.ps1:560-561 | a failure behind the commit is never rolled back at once: the new configuration stays beside the record |
| `DeploymentCommands.LaunchServes` | scripts/laya.ps1:602-610 | a start that ends well has validated the current version, leaves it running, and leaves the files alone |
| `DeploymentCommands.LaunchExactly` | scripts/laya.ps1:602-607 | where every step works a start ends well exactly with a version, no process and no record, and does nothing otherwise |
| `DeploymentCommands.FailedLaunchStops` | scripts/laya.ps1:607-608 | a start that fails is stopped again |
| `DeploymentCommands.HaltStops` | scripts/laya.ps1:611-616 | a stop that ends well leaves no process and changes nothing else |
| `DeploymentCommands.HaltExactly` | scripts/laya.ps1:611-616 | where every step works a stop ends well exactly with a deployment and no record |
| `DeploymentCommands.RecoverRestores` | scripts/laya.ps1:591-596 | a recovery that ends well puts back what the record holds |
| `DeploymentCommands.RecoverExactly` | scripts/laya.ps1:591-597 | where every step works a recovery ends well exactly with a record |
| `DeploymentCommands.InstallDoes` | scripts/laya.ps1:564-588 | an install that ends well: the release, each setting as given or as it was, validated, running as before |
| `DeploymentCommands.InstallDoesMacOS` | scripts/laya-macos.sh:283-298 | a first install on macOS writes that configuration and nothing else |
| `DeploymentCommands.InstallExactly` | scripts/laya.ps1:564-588 | where every step works an install ends well exactly if it was prepared and finds no record, on macOS also no deployment |
| `DeploymentCommands.UpdateDoes` | scripts/laya.ps1:564-588 | an update that ends well: the new release under the settings in place |
| `DeploymentCommands.UpdateExactly` | scripts/laya.ps1:565-566 | where every step works an update ends well exactly if it was prepared and finds a deployment and no record |
| `DeploymentCommands.FailureRolledBack` | scripts/laya.ps1:550-559 | which failures are rolled back at once, and that the old version is then as it was; the others leave the record |
| `DeploymentCommands.StepIsReal` | scripts/laya.ps1:383-442 | a process appears only by a start that finds none, and a configuration passes only while it runs |
| `DeploymentSafety.ExitIsKill` | scripts/laya-macos.sh:355-413 | a script that ends at a failed step without its rollback leaves the world of one killed there |
| `DeploymentState.Host.StopOwned` | scripts/laya.ps1:398-411 | the process is stopped, or the step fails and changes nothing |
| `DeploymentState.Host.StartOwned` | scripts/laya.ps1:417-442 | a process is started only if none runs |
| `DeploymentState.Host.ValidateRunning` | scripts/laya.ps1:476-504 | validation passes only for the process of this configuration |
| `DeploymentState.Host.RestoreTransaction` | scripts/laya.ps1:528-539 | the function passes through exactly the worlds of a recovery |
| `DeploymentState.Host.SwitchCandidate` | scripts/laya.ps1:541-562 | try block, catch block and commit pass through exactly the worlds of a switch |
| `DeploymentState.Host.UpdateMacOS` | scripts/laya-macos.sh:466-486 | the macOS order of the same switch: previous before current, rollback only for start and validation |
| `DeploymentState.Host.Launch` | scripts/laya.ps1:602-609 | a start that fails to validate is stopped again |
| `DeploymentState.Host.Invoke` | scripts/laya.ps1:591-618 | the dispatch and what follows do what the plan of the command says |
| `QuoteArgument.OnePass` | scripts/laya.ps1:413-415 | the two replacements are one pass over the value |
| `QuoteArgument.ParseQuoted` | scripts/laya.ps1:413-415 | the C runtime reads a quoted value as one argument |
| `QuoteArgument.ReadsBackExactly` | scripts/laya.ps1:413-415 | a value is read back unchanged if and only if it does not end in a backslash and a newline |
| `QuoteArgument.ArgumentsReadBack` | scripts/laya.ps1:431-432 | the joined command line reads back as the same arguments, if and only if none ends so |
| `Wrappers.GatheredAre` | src/system_one.rs:163-167 | collecting results succeeds exactly if every part does, and keeps their order |
| `Wrappers.GatheredFirst` | src/postprocess.rs:171-182 | a collection that fails, fails as its first failing part |

## Left out

- Tokio: the semaphore (a line of waiters, permits assigned in order, dropped waiters give theirs
  back), the task set with its join wakeups and the monotone clock are assumed; cooperative
  budgets, the runtime's own teardown and `force_exit` beyond its being an end are not modelled.
- Fairness of threads: `AdmissionDrain.CanDrain` and `AdmissionRuns.NoLostWakeup` say that nothing
  blocks progress, not that a thread gets its turn.
- Metrics, logs, the trace dispatcher and HTTP routing, headers and status codes.
- Lexing of JSON and the shortest digits of a double: documents start as raw trees, floats as the
  digits that the library printed. The reader takes number text, the two infinities included, as
  text.
- Decimal.FloatTextValue: says nothing of the rounding of the parsed lexeme to binary64, which is
  assumed to have happened before.
- Tokenizer, special-token lookup and the removal of the mask text from inputs: part of the
  arbitrary encoding function.
- RequestBatch.Build: failed allocations (`reserved`) would only add an error to every buffer, and
  the mask text is removed inside the encoding function.
- Postprocess.ScoreInRange: the weighted sum of the score and the sum in the distribution check are
  exact, where the code adds in binary64.
- Postprocess.Probabilities: the sum in its distribution check is exact, where the code adds in
  binary64.
- Postprocess.Respond: the same, and the confidence of its answers is any function.
- ExactSoftmax.ExactProbabilities: about arithmetic without rounding, not about binary32.
- Rounding.Round4Closest: compares exact decimals, not the binary64 that is returned.
- Rounding.Round4Means: the last step of `round4`, from the four-place decimal to the nearest
  binary64, and the sign of zero are not modelled.
- Postprocess.AnswerQuestion: the confidence is any function of the summed entropy terms; its
  value is not claimed.
- ONNX Runtime, model loading and `src/engine.rs`: inference is any total or failing function.
- In the scripts: downloads, unpacking, file ownership and links, tokens, a process that could
  be started but not recorded, and the HTTP probes behind validation. Writing a file and
  starting a process together with its record are single steps. The operation lock is assumed: one
  command at a time.
- DeploymentState.Host.StopOwned: identity of the process, stop file and grace period are one flag
  that says whether the step works.
- DeploymentState.Host.StartOwned: verification of the files, the token and the recording of the
  process are one such flag.
- DeploymentState.Host.ValidateRunning: so are the probes.
- DeploymentState.Host.UpdateMacOS: a `die` inside `launch` or `validate_running` skips the rollback;
  it is the switch killed at that step (`DeploymentSafety.ExitIsKill`).
- The exit trap of the macOS script: the stop of a failed start is modelled as the step that the
  Windows script takes; other kills by the trap are server deaths.
