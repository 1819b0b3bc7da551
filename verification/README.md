# Verified models of Duktape 2.5.0

This project states and proves what the trickier parts of Duktape and of its JavaScript companions promise.
Code that works on buffers, arrays and stacks in place is modelled in that form and proved against a
specification; protocols are state machines whose properties hold in every run. `dafny verify dfyconfig.toml`
checks everything.

## What is modelled

* **Base64 codec** (`Base64Spec`, `Base64Number`, `Base64Tables`, `Base64Laws`, `Base64Codec`, `Base64Decoder`, `Base64Api`).
  The reference is section 4 of RFC 4648 with the liberties the codec takes: whitespace anywhere, missing, partial
  or extra padding, concatenated documents. Both encoders and both decoders are proved equal to it on every input.
  The fast decoder reads 8 characters at a time, decides by the sign of sign-extended table values, stores 6 bytes
  before it knows whether they count, and alternates with a slow path whose two scans step back.
* **Promise jobs** (`PromiseMachine`, `PromiseSettling`, `PromiseQueue`, `PromiseThen`, `PromiseTracker`,
  `PromiseHooks`, `PromiseReports`, `PromiseHookRuns`, `PromiseRunner`, `PromiseUnoptimized`, `PromiseEquivalence`,
  `PromiseRuntime`). A state machine whose environment is user code: between two steps user code may call any
  resolve/reject pair, `then` or `race`, and a call out to user code (a handler, a `then` method, a `then` getter)
  is a frame that stays open until it returns. The rules come from sections 8.4 and 25.4 of ECMA-262 6th edition.
  `PromiseHooks` is the machine whose rejection hook calls promise code itself, at every depth; `PromiseThen` states
  what then() promises its caller, apart from how registrations are kept; `PromiseUnoptimized` is the machine whose
  jobs capture resolve/reject pairs; `PromiseRuntime` updates objects in place and refines the machine;
  `PromiseRunner` is the loop around jobs and checks.
* **Value stack** (`StackEdits`, `StackLaws`, `ValueStack`, `StackRuns`). One array with bottom, top, reserve
  end and allocated end; slots above the top are undefined; memmove-style edits move references without touching
  counts. A `Picture` is the state of one stack as a value, and `Ready` says that the pointers are in order, the
  unused slots are undefined, and every count is the number of references from the stack and from elsewhere.
* **Array algorithms** (`SparseArray`, `SortOrder`, `ArraySort`, `StringJoin`, `ArrayJoin`). Arrays with holes:
  quicksort with random pivots and an arbitrary, even inconsistent, comparator; splice, shift, unshift and
  reverse; join with intermediate joins. The order of sorted arrays is that of section 15.4.4.11 of ECMA-262 5.1.
* **Function dumps** (`StringLength`, `BytecodeFormat`, `BytecodeLaws`, `BytecodeWriter`, `BytecodeReader`). The
  recursive format with its sentinel-terminated variable map, the writer that makes room in a growing buffer before
  raw writes, and the loader that advances a pointer. `StringLength` is the length by which it finds the sentinel.
* **Typed arrays and fields** (`Memory`, `TypedArraySpec`, `TypedArray`, `VarintSpec`, `VarintField`). `set()`
  between overlapping views of integer elements, and fields of one to six bytes in both byte orders.
* **Debugger protocol** (`DebugValues`, `DebugStream`, `DebugParser`). The byte format of values and the parser
  that is fed arbitrary chunks.
* **xoroshiro128+** (`Xoroshiro`). Its state map over 64-bit words, and the jump function.

`Words`, `Numbers` and `Wrappers` hold shared notions. Words are written out as integers with explicit wrapping
where the source computes in 32 or 64 bits, and as 64-bit vectors in `Xoroshiro`.

## Where the code does less than one might expect

* A function dump does not come back when, at some depth, a variable has a name that the loader takes for the
  closing empty one, or the number of formals is the marker 0xffffffff. The loader asks for the length of the name,
  which is zero for the empty string, for symbols (first byte 0x80, 0x81, 0x82 or 0xff) and for continuation bytes
  alone (`StringLength.LengthZero`). `BytecodeLaws.RoundTrip` says that these are the only cases,
  `BytecodeLaws.EmptyNameLosesBindings` and `RegisterIsReadAsCount` what is lost in the first, and
  `BytecodeLaws.LostNames` gives functions that do not come back.
* A debugger value comes back from its bytes exactly when it is encodable (`DebugValues.ParseFormatted`): whole
  numbers beyond 32 bits and other doubles come back as raw numbers, characters above 255, wide class numbers and
  flags, and pointers above 255 bytes are cut.
* A rejection hook that registers handlers on the promise it is told about can make the later 'handle' report
  impossible, since the mark is written after the hook returns. This is the only way to lose it: at each of the
  three calls of the hook, inside other calls too, it happens if and only if the hook registers on that promise, for 'rawHandle' after
  'reject' was reported (`PromiseReports.RejectHookLoses`, `RawRejectHookLoses`, `RawHandleHookLoses`), such a
  promise never reports 'handle' (`PromiseReports.CaughtForEver`), and every other promise has up-to-date reports
  after each check (`PromiseReports.CheckedExactly`). `PromiseHookRuns` has a run for each case.
* The comment at duktape-2.5.0/polyfills/promise.js:146-153 says that some of the optimizations rely on the
  check for an already settled promise. `PromiseSettling.ChecksNeverFire` shows that it never fires for promises
  that `race` does not forward to, and `PromiseSettling.RaceAddsAuthority` that `race` is the one that needs it.
* A field write reads back exactly when the value is in the field's range (`VarintField.WriteThenRead`), and the
  copy table of typed arrays leaves out exactly the pairs for which a byte copy would be wrong
  (`TypedArraySpec.TableIsExact`).

## Model

| member | source | states |
|---|---|---|
| `Base64Tables.EncTabIsTable` | duktape-2.5.0/src-input/duk_api_codec.c:62-67 | the encode table as written out entry by entry is the one the reference uses |
| `Base64Tables.DecTabIsTable` | duktape-2.5.0/src-input/duk_api_codec.c:77-94 | each of the 256 entries of the decode table is what the reference reads for that byte: the digit, or the mark of whitespace, padding or an error |
| `Base64Spec.EncTabIsDigit` | duktape-2.5.0/src-input/duk_api_codec.c:62-67 | the encode table and the decode table are inverse: an encoded digit is read back as that digit |
| `Base64Spec.Encode` | duktape-2.5.0/src-input/duk_api_codec.c:143-202 | the encoding of section 4 of RFC 4648 has exactly (n + 2) / 3 * 4 characters; which ones, `Base64Number.EncodeIsNumber` says |
| `Base64Number.EncodeIsNumber` | duktape-2.5.0/src-input/duk_api_codec.c:98-202 | the digits in front of the padding, read in base 64 with the decode table, are the number that the bytes are in base 256, times 1, 16 or 4 when the length leaves 0, 1 or 2 over a multiple of three, and exactly the last 0, 2 or 1 characters are '=' |
| `Base64Number.RunIsNumber` | duktape-2.5.0/src-input/duk_api_codec.c:384-426 | the bytes that a run of digits decodes to are, in base 256, the number of the digits in base 64 without the spare bits of the last digit |
| `Base64Spec.ContIsDecode` | duktape-2.5.0/src-input/duk_api_codec.c:301-459 | the run-by-run reading of a text (padding ends a run) and the reading one character at a time with a pending group give the same result on every text |
| `Base64Laws.RoundTrip` | duktape-2.5.0/src-input/duk_api_codec.c:614-686 | decoding the encoding of any byte string gives that byte string |
| `Base64Laws.EncodedPrefix` | duktape-2.5.0/src-input/duk_api_codec.c:428-458 | an encoded document in front of any text decodes to its bytes followed by what the text decodes to |
| `Base64Laws.WhitespaceIsIgnored` | duktape-2.5.0/src-input/duk_api_codec.c:382-383 | removing all whitespace anywhere, in the middle of a group too, does not change the result |
| `Base64Laws.DecodeDocuments` | duktape-2.5.0/src-input/duk_api_codec.c:428-458 | any number of encoded documents, each followed by any amount of extra padding, with whitespace inserted anywhere, decode to the documents' bytes one after the other |
| `Base64Laws.AcceptedTexts` | duktape-2.5.0/src-input/duk_api_codec.c:405-426 | a text is accepted if and only if it has no bad character and no run of 4k + 1 digits between paddings |
| `Base64Laws.RunLength` | duktape-2.5.0/src-input/duk_api_codec.c:410-415 | a run of digits is rejected exactly when one digit is left over, and otherwise yields three bytes for four digits, rounded down |
| `Base64Laws.DecodedLength` | duktape-2.5.0/src-input/duk_api_codec.c:663-670 | a decoded text has at most three bytes for four characters, and the encodings without padding reach that bound |
| `Base64Codec.EncodeFast3` | duktape-2.5.0/src-input/duk_api_codec.c:98-120 | three bytes, shifted into one word and out again in 6-bit steps, become the four characters of their group |
| `Base64Codec.EncodeFast2` | duktape-2.5.0/src-input/duk_api_codec.c:122-131 | the last two bytes become three characters and one padding character |
| `Base64Codec.EncodeFast1` | duktape-2.5.0/src-input/duk_api_codec.c:133-141 | the last byte becomes the four characters of its encoding, two of them padding, behind what was written before |
| `Base64Codec.EncodeUnrolled` | duktape-2.5.0/src-input/duk_api_codec.c:152-174 | the loop unrolled by four encodes all whole 12-byte chunks, and what remains to be encoded after its output is unchanged |
| `Base64Codec.EncodeHelperFast` | duktape-2.5.0/src-input/duk_api_codec.c:143-202 | the fast encoder fills the buffer with exactly the encoding |
| `Base64Codec.EncodeChar` | duktape-2.5.0/src-input/duk_api_codec.c:237-258 | the comparisons of the compact encoder agree with the encode table |
| `Base64Codec.ReadGroup` | duktape-2.5.0/src-input/duk_api_codec.c:217-230 | three bytes are read into a word, most significant first and those past the end as zero, and the missing ones are counted |
| `Base64Codec.EmittedDigits` | duktape-2.5.0/src-input/duk_api_codec.c:237-239 | bits 18 to 23 show the four digits one after the other although shifting in 32 bits loses the bits above |
| `Base64Codec.PaddingFixesOutput` | duktape-2.5.0/src-input/duk_api_codec.c:262-273 | rewriting the last 0 to 2 characters as padding turns the zero-padded output into the encoding |
| `Base64Codec.EncodeHelperCompact` | duktape-2.5.0/src-input/duk_api_codec.c:204-274 | the compact encoder fills the buffer with exactly the encoding |
| `Base64Decoder.AccRange` | duktape-2.5.0/src-input/duk_api_codec.c:484-494 | the accumulator with its leading one tells how many digits were shifted in |
| `Base64Decoder.ShiftOrIsBitwise` | duktape-2.5.0/src-input/duk_api_codec.c:324-343 | shifting and ORing sign-extended table values in 32-bit words is addition for digits and keeps a negative value, and the sign of two ORed words is the OR of their signs |
| `Base64Decoder.LookupSign` | duktape-2.5.0/src-input/duk_api_codec.c:312-343 | one sign test on a word decides whether all four characters are digits, and then the word holds their three bytes |
| `Base64Decoder.PaddedGroup` | duktape-2.5.0/src-input/duk_api_codec.c:396-426 | simulated padding and the step table emit exactly the bytes of a partial group, or reject a single digit |
| `Base64Decoder.FastPath` | duktape-2.5.0/src-input/duk_api_codec.c:309-357 | the speculative 6-byte stores stay in the buffer, and the bytes kept plus what is left to decode are the same as before the loop |
| `Base64Decoder.ScanGroup` | duktape-2.5.0/src-input/duk_api_codec.c:369-394 | scanning stops at a full group, at padding or at the end with the digits read so far, or at a bad character, which rejects the whole text |
| `Base64Decoder.SimulatePadding` | duktape-2.5.0/src-input/duk_api_codec.c:399-403 | zero digits are shifted in until the group is full, and counted |
| `Base64Decoder.StoreGroup` | duktape-2.5.0/src-input/duk_api_codec.c:417-426 | three bytes are stored, the output grows by the bytes of the group only, and a single digit is an error |
| `Base64Decoder.SkipPadding` | duktape-2.5.0/src-input/duk_api_codec.c:447-458 | padding and whitespace are skipped without changing the result, and at least one character is used when one is padding |
| `Base64Decoder.DecodeRound` | duktape-2.5.0/src-input/duk_api_codec.c:301-459 | a round of fast path, one group and padding makes progress in the input although both scans step back, or ends with the result |
| `Base64Decoder.RoomForGroup` | duktape-2.5.0/src-input/duk_api_codec.c:301-426 | a buffer of (n / 4) * 3 + 3 bytes, and one more when n is 4k + 3, has room for every store of the fast decoder, also those behind the bytes that count |
| `Base64Decoder.DecodeHelperFast` | duktape-2.5.0/src-input/duk_api_codec.c:278-471 | for every input the fast decoder terminates, stores inside a buffer of that size, rejects exactly the texts the reference rejects, and otherwise leaves exactly the reference output |
| `Base64Decoder.CompactTab` | duktape-2.5.0/src-input/duk_api_codec.c:518-568 | the range tests of the compact decoder agree with the decode table on every byte |
| `Base64Decoder.ReadChar` | duktape-2.5.0/src-input/duk_api_codec.c:503-575 | one character extends the pending group, completes it, is skipped, or rejects the text, as the reference reading says |
| `Base64Decoder.DecodeHelperCompact` | duktape-2.5.0/src-input/duk_api_codec.c:474-611 | the compact decoder gives the reference result on every input, and (n / 4) * 3 + 3 bytes of buffer are enough for it |
| `Base64Api.EncodeLimitIsExact` | duktape-2.5.0/src-input/duk_api_codec.c:627-636 | the input limit 3221225469 is the largest length whose encoded length fits 32 bits, and the sum does not wrap below it |
| `Base64Api.EncodeBoth` | duktape-2.5.0/src-input/duk_api_codec.c:614-648 | both encoders give the same encoding, or the type error above the limit |
| `Base64Api.DecodeBoth` | duktape-2.5.0/src-input/duk_api_codec.c:650-686 | with the buffer of (n / 4) * 3 + 6 bytes that is allocated, both decoders reject, or both accept with the same output, on every input |
| `Base64Api.EncodeThenDecode` | duktape-2.5.0/src-input/duk_api_codec.c:614-686 | decoding undoes encoding in every combination of the build variants |
| `PromiseMachine.StepWellFormed` | duktape-2.5.0/polyfills/promise.js:198-310 | every step keeps all jobs, reactions, pairs, open calls and list entries pointing at existing promises, and removes no promise |
| `PromiseSettling.SettlesAtMostOnce` | duktape-2.5.0/polyfills/promise.js:154-189 | in every run a promise that is fulfilled or rejected keeps that state and value for ever |
| `PromiseSettling.OneAuthority` | duktape-2.5.0/polyfills/promise.js:191-310 | in every run, exactly one uncalled pair, open call, queued job or waiting registration can still settle each pending promise that race does not forward to, and nothing can settle a settled one |
| `PromiseSettling.InitialBalanced` | duktape-2.5.0/polyfills/promise.js:48 | the empty machine is well formed and balanced, whichever promises race will forward to |
| `PromiseSettling.StepBalanced` | duktape-2.5.0/polyfills/promise.js:198-310 | each step of the machine keeps that balance of the promises that race does not forward to, whatever user code does |
| `PromiseSettling.ChecksNeverFire` | duktape-2.5.0/polyfills/promise.js:146-153 | in a balanced state every uncalled pair, queued job and open call for a promise that race does not forward to finds it pending |
| `PromiseSettling.OneUncalledPairOnly` | duktape-2.5.0/polyfills/promise.js:191-197 | of two pairs made for one such promise, the later one for a thenable job, at most one is uncalled |
| `PromiseSettling.RaceAddsAuthority` | duktape-2.5.0/polyfills/promise.js:388-414 | forwarding by race adds an authority to its target, which breaks the balance of the target and of no other promise, and is why raw settling checks the state |
| `PromiseSettling.CalledPairIsInert` | duktape-2.5.0/polyfills/promise.js:204-213 | in every run, once a pair has been called, any later call of its resolve or reject function changes nothing at all |
| `PromiseSettling.FirstCallDecides` | duktape-2.5.0/polyfills/promise.js:198-251 | the first call of the pair of a promise that race does not forward to gives it the outcome of the value, for ever and whatever follows, unless an object's 'then' has to be asked, and makes every later call of the pair a no-op |
| `PromiseSettling.OutcomeOfFirstCall` | duktape-2.5.0/polyfills/promise.js:198-251 | the same for whole runs from the start of the machine, race included |
| `PromiseQueue.RunsInOrder` | duktape-2.5.0/polyfills/promise.js:48-75 | in every run jobs start in the order they were queued, none is queued twice, and each promise queues the matching one of each registration's two reactions, in registration order; what those reactions do, `PromiseThen.EveryRequestIsServed` says |
| `PromiseThen.EveryRequestIsServed` | duktape-2.5.0/polyfills/promise.js:416-514 | for every then() and every forward of race in a run, made before or after its promise settled: once that promise is settled its job is queued or has run, and at the head of the queue the job calls the function given for the outcome with the promise's value, for the promise that this then() returned; without such a function, or for a forward, the outcome is passed on: a fulfilled value resolves that promise, a rejection rejects it |
| `PromiseThen.ServedIsPending` | duktape-2.5.0/polyfills/promise.js:254-310 | a promise returned by then() to which race does not forward is still pending when that job runs, so that the job does settle it |
| `PromiseThen.RunsWired` | duktape-2.5.0/polyfills/promise.js:158-186 | in every run every waiting reaction carries the handler its request asked for, every queued one also the value of its promise, every thenable job the method that was found, and what an identity was handed out for never changes |
| `PromiseThen.StepWired` | duktape-2.5.0/polyfills/promise.js:254-310 | one action of user code or of the queue runner keeps that |
| `PromiseThen.ReturnDecides` | duktape-2.5.0/polyfills/promise.js:294-306 | whatever runs between the call of a handler and its return, what it returns resolves the promise the call was made for and what it throws rejects it |
| `PromiseThen.LookupDecides` | duktape-2.5.0/polyfills/promise.js:218-247 | while a promise is resolved with an object, no callable 'then' fulfills it with the object, an error of the access rejects it, and a callable 'then' leaves it pending |
| `PromiseThen.ThenableDecides` | duktape-2.5.0/polyfills/promise.js:261-278 | what a thenable's method returns is ignored, and what it throws rejects the promise unless it had used its pair |
| `PromiseThen.OpenCallsStay` | duktape-2.5.0/polyfills/promise.js:254-310 | calls that a run does not return from keep their frames |
| `PromiseQueue.InitialInOrder` | duktape-2.5.0/polyfills/promise.js:48 | the empty machine is in order and has queued nothing |
| `PromiseQueue.SettleInOrder` | duktape-2.5.0/polyfills/promise.js:154-189 | settling a promise queues exactly the matching reactions of its registrations behind all queued jobs |
| `PromiseQueue.PendingSubscribeInOrder` | duktape-2.5.0/polyfills/promise.js:428-449 | registering on a pending promise queues nothing and keeps its reactions in registration order |
| `PromiseQueue.EnqueueNowInOrder` | duktape-2.5.0/polyfills/promise.js:450-483 | registering on a settled promise queues exactly one job, behind all queued ones |
| `PromiseQueue.CallsOnlyFromQueue` | duktape-2.5.0/polyfills/promise.js:254-310 | handlers and 'then' methods are called only by the queue runner |
| `PromiseTracker.RunsTracked` | duktape-2.5.0/polyfills/promise.js:118-144 | in every run with hooks that do not call promise code, each promise has reported nothing, 'reject', or 'reject' and then 'handle', and its mark fits what was reported |
| `PromiseTracker.InitialTracked` | duktape-2.5.0/polyfills/promise.js:337 | the empty machine has reported nothing and its marks fit that |
| `PromiseTracker.CheckReportsExactly` | duktape-2.5.0/polyfills/promise.js:536-576 | a check reports 'reject' for exactly the unhandled rejections not yet reported and 'handle' for exactly the reported ones handled since, and leaves the queue and the rejection list empty |
| `PromiseTracker.RunsHandled` | duktape-2.5.0/polyfills/promise.js:416-514 | in every run exactly the promises on which then() was called or race forwards are marked as handled |
| `PromiseTracker.EveryCheckIsRight` | duktape-2.5.0/polyfills/promise.js:536-576 | after every check of every run, a rejected promise on which nothing is registered has reported 'reject', one on which something is has reported nothing or 'reject' and then 'handle', and any other promise nothing |
| `PromiseHooks.IdleHooksAddNothing` | duktape-2.5.0/polyfills/promise.js:111-117 | with hooks that do nothing, every step of the machine with hooks is the step of the machine without |
| `PromiseReports.StepGood` | duktape-2.5.0/polyfills/promise.js:118-144 | any step, with arbitrary actions of the hook at each of its calls and at the calls these cause, leaves exactly the caught promises handled without a mark that says so, and the marks and reports of all others in step |
| `PromiseReports.RunsGood` | duktape-2.5.0/polyfills/promise.js:118-189 | the same for every run: a promise is caught when the hook, while told of it, registers on it and the mark written afterwards misses that |
| `PromiseReports.CaughtIsSpoiled` | duktape-2.5.0/polyfills/promise.js:118-144 | the promises caught so far are exactly those handled without a mark that says so |
| `PromiseReports.Take` | duktape-2.5.0/polyfills/promise.js:154-189 | in every run with hooks that call promise code, too, a settled promise keeps its state and value, and no registration is lost |
| `PromiseReports.CheckedExactly` | duktape-2.5.0/polyfills/promise.js:536-576 | after a check during which hooks did anything, the reports of a promise are up to date if and only if it was never caught; a caught one is handled and has reported only 'reject' |
| `PromiseReports.CaughtForEver` | duktape-2.5.0/polyfills/promise.js:564-570 | a caught promise never reports 'handle' in any later run |
| `PromiseReports.RejectHookLoses` | duktape-2.5.0/polyfills/promise.js:564-566 | a 'reject' hook loses the later 'handle' report if and only if it registers on the promise it is told about |
| `PromiseReports.RawRejectHookLoses` | duktape-2.5.0/polyfills/promise.js:120-124 | a 'rawReject' hook, also one called inside other calls of the hook, does if and only if it registers on the promise just rejected, which is then reported although handled |
| `PromiseReports.RawHandleHookLoses` | duktape-2.5.0/polyfills/promise.js:125-138 | a 'rawHandle' hook, also one called inside calls for other promises, does if and only if it registers on the promise after its rejection was reported |
| `PromiseHookRuns.ScriptRegisters` | duktape-2.5.0/polyfills/promise.js:416-508 | a list of actions that cause no further hook calls registers on a promise exactly when one of them calls `then` on it or lets race forward it |
| `PromiseHookRuns.RejectScriptLoses` | duktape-2.5.0/polyfills/promise.js:564-566 | so the 'reject' hook loses the report exactly when its actions contain such a call |
| `PromiseHookRuns.RawRejectScriptLoses` | duktape-2.5.0/polyfills/promise.js:120-124 | the same for a 'rawReject' hook |
| `PromiseHookRuns.RawHandleScriptLoses` | duktape-2.5.0/polyfills/promise.js:125-138 | the same for a 'rawHandle' hook, provided the rejection was reported before |
| `PromiseHookRuns.RejectHookRun` | duktape-2.5.0/polyfills/promise.js:564-566 | a run from the start of the machine in which a 'reject' hook loses the report |
| `PromiseHookRuns.RawRejectHookRun` | duktape-2.5.0/polyfills/promise.js:120-124 | a run in which a 'rawReject' hook does |
| `PromiseHookRuns.RawHandleHookRun` | duktape-2.5.0/polyfills/promise.js:125-138 | a run in which a 'rawHandle' hook does |
| `PromiseRunner.RunJobs` | duktape-2.5.0/polyfills/promise.js:254-310 | the inner loop runs jobs, and user code while a call is open, until the queue is empty |
| `PromiseRunner.RunQueue` | duktape-2.5.0/polyfills/promise.js:597-602 | the runner takes the steps of a run and returns only right after a check that left queue and rejection list empty, when exactly the promises never caught have up-to-date reports |
| `PromiseEquivalence.OptimizationIsUnobservable` | duktape-2.5.0/polyfills/promise.js:33-39 | on every run without race the machine whose jobs name a target and the one whose jobs capture resolve/reject pairs accept the same actions, make the same calls and reports in the same order, and agree on all promise states and on the pairs that user code holds |
| `PromiseEquivalence.RelatedStep` | duktape-2.5.0/polyfills/promise.js:198-310 | one action, accepted by the optimized machine, is accepted by the other and keeps them related |
| `PromiseEquivalence.RelatedCallCaptured` | duktape-2.5.0/polyfills/promise.js:281-307 | calling a pair made when the job runs and calling the pair captured when the job was made have related effects |
| `PromiseEquivalence.HeldIsUnlinked` | duktape-2.5.0/polyfills/promise.js:191-197 | a pair about to be called is linked from no other job, reaction or open call |
| `PromiseEquivalence.InitialRelated` | duktape-2.5.0/polyfills/promise.js:48-75 | the two machines start in related states |
| `PromiseRuntime.JobQueue.Enqueue` | duktape-2.5.0/polyfills/promise.js:49-62 | linking a job behind the tail appends it to the sequence the list represents |
| `PromiseRuntime.JobQueue.Dequeue` | duktape-2.5.0/polyfills/promise.js:63-72 | unlinking the head removes the first job of the sequence, or returns null when it is empty |
| `PromiseRuntime.PromiseCore.Activate` | duktape-2.5.0/polyfills/promise.js:159-185 | a reaction object is reused as the job with its promise's value, and stands nowhere else |
| `PromiseRuntime.PromiseCore.ActivateAll` | duktape-2.5.0/polyfills/promise.js:159-185 | all objects of a reaction list are queued in order |
| `PromiseRuntime.PromiseCore.DoFulfill` | duktape-2.5.0/polyfills/promise.js:154-166 | fulfilling in place refines the machine's step and does nothing on a settled promise |
| `PromiseRuntime.PromiseCore.DoReject` | duktape-2.5.0/polyfills/promise.js:167-189 | rejecting in place refines the machine's step, with the tracker called for an unhandled promise |
| `PromiseRuntime.PromiseCore.RejectionTracker` | duktape-2.5.0/polyfills/promise.js:118-144 | the tracker's marks and list entries are those of the machine |
| `PromiseRuntime.PromiseCore.NewPromise` | duktape-2.5.0/polyfills/promise.js:321-327 | a new promise is pending without reactions |
| `PromiseRuntime.PromiseCore.Subscribe` | duktape-2.5.0/polyfills/promise.js:417-514 | then() and optimizedThen() on their promise refine the machine's registration in all three states, whose effect `PromiseThen.EveryRequestIsServed` states without naming it |
| `PromiseRuntime.PromiseCore.EnqueueThenable` | duktape-2.5.0/polyfills/promise.js:221-243 | a thenable is queued with its 'then' method and target |
| `PromiseRuntime.PromiseCore.StartResolve` | duktape-2.5.0/polyfills/promise.js:210-248 | the guards of resolve: settled, self resolution, object, plain value |
| `PromiseRuntime.PromiseCore.DequeueJob` | duktape-2.5.0/polyfills/promise.js:254-260 | the runner takes the job at the head of the queue |
| `PromiseRuntime.PromiseCore.CheckUnhandledRejections` | duktape-2.5.0/polyfills/promise.js:536-576 | the loop over the rejection list refines the machine's check |
| `ValueStack.PositionIsExact` | duktape-2.5.0/src-input/duk_api_stack.c:351-378 | the unsigned comparison accepts exactly the indices of the frame, counted from the top when negative; wrapping makes no other index valid |
| `StackEdits.PullUndoesInsert` | duktape-2.5.0/src-input/duk_api_stack.c:1154-1243 | pulling a value undoes inserting it at that index, and the other way round; the moved value is at its new place, and the others keep their order |
| `StackEdits.RemoveUndoesWiden` | duktape-2.5.0/src-input/duk_api_stack.c:1333-1488 | the values put into a gap are there, and removing them gives the frame back |
| `StackEdits.RemovedAt` | duktape-2.5.0/src-input/duk_api_stack.c:1345-1370 | the values in front of a removed stretch stay, and those behind it move down by its length |
| `StackEdits.InsertedRefs` | duktape-2.5.0/src-input/duk_api_stack.c:1181-1185 | inserting keeps every object's number of references |
| `StackEdits.PulledRefs` | duktape-2.5.0/src-input/duk_api_stack.c:1238-1242 | pulling keeps every object's number of references |
| `StackEdits.RemovedRefs` | duktape-2.5.0/src-input/duk_api_stack.c:1360-1370 | removing loses exactly the references of the values removed |
| `StackEdits.SwappedRefs` | duktape-2.5.0/src-input/duk_api_stack.c:1067-1083 | swapping keeps every object's number of references |
| `StackLaws.PackLaw` | duktape-2.5.0/src-input/duk_api_stack.c:6179-6205 | moving values into an array leaves all counts exact when the array's references are counted with it |
| `StackLaws.ReserveLaw` | duktape-2.5.0/src-input/duk_api_stack.c:770-812 | a reallocation that keeps the slots below the top, with new slots undefined, keeps all frames and counts |
| `ValueStack.Heap.Decref` | duktape-2.5.0/src-input/duk_api_stack.c:1264 | a count drops by one and reaching zero is reported |
| `ValueStack.Heap.IncrefRange` | duktape-2.5.0/src-input/duk_api_stack.c:1438-1444 | copied values are counted one by one |
| `ValueStack.Heap.DecrefRange` | duktape-2.5.0/src-input/duk_api_stack.c:1360-1362 | the references of a stretch of slots are dropped one by one |
| `ValueStack.Stack.constructor` | duktape-2.5.0/src-input/duk_hthread_alloc.c:13-46 | a new stack is empty, with every slot undefined and the reserve within the allocation |
| `ValueStack.Stack.Push` | duktape-2.5.0/src-input/duk_api_stack.c:4292-4302 | pushing puts the value on the frame and counts it, or is the range error when the reserve is used up |
| `ValueStack.Stack.Dup` | duktape-2.5.0/src-input/duk_api_stack.c:1091-1104 | the value at an index is pushed again and counted, or the reserve or the index is the range error |
| `ValueStack.Stack.SetTop` | duktape-2.5.0/src-input/duk_api_stack.c:429-522 | the frame is cut, with the references above dropped, or extended by undefined values, or the range error when the index is outside the reserve, and then nothing changes |
| `ValueStack.Stack.PopN` | duktape-2.5.0/src-input/duk_api_stack.c:5926-5937 | the top values are dropped with their references; a negative or too large count is the range error |
| `ValueStack.Stack.Insert` | duktape-2.5.0/src-input/duk_api_stack.c:1154-1186 | the top value moves to an index by one memmove, all other values keep their order, and no count changes |
| `ValueStack.Stack.Pull` | duktape-2.5.0/src-input/duk_api_stack.c:1211-1243 | the value at an index moves to the top by one memmove, and no count changes |
| `ValueStack.Stack.Swap` | duktape-2.5.0/src-input/duk_api_stack.c:1067-1083 | two values change places |
| `ValueStack.Stack.Copy` | duktape-2.5.0/src-input/duk_api_stack.c:1267-1280 | one value is written over another, counted before the old one is dropped; copying onto itself changes nothing |
| `ValueStack.Stack.Remove` | duktape-2.5.0/src-input/duk_api_stack.c:1282-1319 | one value is taken out, those above move down, the freed slot is undefined and its reference is dropped last |
| `ValueStack.Stack.RemoveN` | duktape-2.5.0/src-input/duk_api_stack.c:1345-1375 | a stretch of values is taken out, their references dropped and the freed slots undefined |
| `ValueStack.Stack.InsertUndefinedN` | duktape-2.5.0/src-input/duk_api_stack.c:1196-1209 | a gap is opened inside the frame and filled with undefined values |
| `ValueStack.Stack.Replace` | duktape-2.5.0/src-input/duk_api_stack.c:1245-1265 | the top value is popped into an index, also into its own, and the old value there is dropped |
| `ValueStack.Stack.Pack` | duktape-2.5.0/src-input/duk_api_stack.c:6153-6206 | the top values become the contents of a new array, which takes their place with one reference; counts of the contents do not change |
| `ValueStack.Stack.Resize` | duktape-2.5.0/src-input/duk_api_stack.c:677-822 | a reallocation keeps what fits and sets new slots to undefined, or fails without change |
| `ValueStack.Stack.Grow` | duktape-2.5.0/src-input/duk_api_stack.c:824-866 | the new reserve is exactly what was asked for; above the limit, or without memory, nothing changes |
| `ValueStack.Stack.GrowCheck` | duktape-2.5.0/src-input/duk_api_stack.c:889-901 | the reserve covers the request afterwards, whether it was there, was allocated already, or had to be allocated |
| `ValueStack.Stack.CheckStack` | duktape-2.5.0/src-input/duk_api_stack.c:971-992 | success leaves room for the values asked for and for the internal extra, and happens exactly when the allocation suffices or can grow within the limit |
| `ValueStack.Stack.ShrinkCheck` | duktape-2.5.0/src-input/duk_api_stack.c:904-969 | shrinking goes down to the reserve plus the configured slack, or to the reserve when snug, and only if enough would be freed; it keeps every frame, and a failed reallocation changes nothing |
| `ValueStack.ClampedMeans` | duktape-2.5.0/src-input/duk_api_stack.c:977-990 | a number of extra values outside 0 to the size limit stands for the nearest number inside |
| `ValueStack.SlackMeans` | duktape-2.5.0/src-input/duk_api_stack.c:828-838 | growing asks for the size and the part of it that the configured shift gives, or for the size alone |
| `ValueStack.ShiftDivides` | duktape-2.5.0/src-input/duk_api_stack.c:831-943 | the shifts by the configured amounts divide by a power of two and drop the remainder |
| `ValueStack.BytesPerSlot` | duktape-2.5.0/src-input/duk_api_stack.c:908-968 | slots and bytes convert by the size of a slot, rounding down |
| `ValueStack.Stack.PushAll` | duktape-2.5.0/src-input/duk_api_stack.c:4292-4302 | as many pushes as there is room succeed in a row |
| `ValueStack.Stack.CheckThenPush` | duktape-2.5.0/src-input/duk_api_stack.c:971-992 | after a successful check for n values, n pushes succeed |
| `ValueStack.XCopyMove` | duktape-2.5.0/src-input/duk_api_stack.c:1388-1457 | values copied or moved to another stack of the heap arrive in order on top of its frame, a move changes no count and a copy counts each value; each error leaves both stacks as they were |
| `ValueStack.CopyTopLaw` | duktape-2.5.0/src-input/duk_api_stack.c:1433-1444 | with copied values counted, both stacks are sound |
| `ValueStack.MoveTopLaw` | duktape-2.5.0/src-input/duk_api_stack.c:1445-1456 | with moved slots set to undefined, both stacks are sound without any count change |
| `StackRuns.Allocate` | duktape-2.5.0/src-input/duk_api_stack.c:6179 | a new array gets an identity that no reference and no array has |
| `StackRuns.Apply` | duktape-2.5.0/src-input/duk_api_stack.c:429-1488 | any one of the operations on a stack is the matching edit of its frame and keeps the stack sound, also when it fails |
| `StackRuns.Step` | duktape-2.5.0/src-input/duk_api_stack.c:429-1488 | an operation on one of two stacks of a heap, or a transfer between them, keeps both sound |
| `StackRuns.Execute` | duktape-2.5.0/src-input/duk_api_stack.c:429-1488 | during any sequence of such operations on two stacks, at every point bottom, top, reserve and allocation are in order, unused slots undefined and every reference count exact, and the frames change step by step as the edits say |
| `StackRuns.RunIsEdits` | duktape-2.5.0/src-input/duk_api_stack.c:429-1376 | a run on one stack that packs nothing and asks for no room is the edits applied one after the other, and nothing else changes |
| `SparseArray.Array.Swap` | duktape-2.5.0/src-input/duk_bi_array.c:758-784 | two elements change places, holes as holes, and nothing else changes |
| `SparseArray.Array.Reverse` | duktape-2.5.0/src-input/duk_bi_array.c:1117-1162 | the array is reversed with holes moved as holes |
| `SparseArray.ReverseTwice` | duktape-2.5.0/src-input/duk_bi_array.c:1117-1162 | reversing twice gives the array back, holes included |
| `SparseArray.ReversedConcat` | duktape-2.5.0/src-input/duk_bi_array.c:1117-1162 | reversing a concatenation reverses the parts in the opposite order |
| `SparseArray.Array.Shift` | duktape-2.5.0/src-input/duk_bi_array.c:1234-1270 | the first slot is removed and its value returned, and all others move down, holes as holes; an empty array returns undefined |
| `SparseArray.Array.Unshift` | duktape-2.5.0/src-input/duk_bi_array.c:1276-1332 | the new values stand in front of the old slots, holes included; the length error is raised exactly when 32 bits do not hold the new length, and changes nothing |
| `SparseArray.ClampedStart` | duktape-2.5.0/src-input/duk_bi_array.c:978-982 | a start counted from the end when negative and clamped lies in the array |
| `SparseArray.StartMeans` | duktape-2.5.0/src-input/duk_bi_array.c:978-982 | a start in the array is itself, a negative one counts from the end, one before the beginning means the beginning, and one behind the end the end |
| `SparseArray.ClampedCount` | duktape-2.5.0/src-input/duk_bi_array.c:984-997 | the delete count never goes past the end |
| `SparseArray.CountMeans` | duktape-2.5.0/src-input/duk_bi_array.c:984-997 | a delete count becomes the nearest number of slots that there are behind the start, and an absent one all of them or none, as configured |
| `SparseArray.Array.CopyOut` | duktape-2.5.0/src-input/duk_bi_array.c:1023-1031 | the removed segment is a new array with its holes |
| `SparseArray.Array.MakeRoom` | duktape-2.5.0/src-input/duk_bi_array.c:1035-1091 | the slots in front of the segment stay and those behind it move by the difference, holes as holes, none overwritten before it is read |
| `SparseArray.Array.Insert` | duktape-2.5.0/src-input/duk_bi_array.c:1094-1099 | the new values are written into the gap |
| `SparseArray.Array.Splice` | duktape-2.5.0/src-input/duk_bi_array.c:950-1111 | splice replaces the clamped segment by the values and returns it with its holes, or raises the length error without change; for a start in range, counted from the beginning or from the end, the segment is given directly |
| `SparseArray.Array.SpliceAt` | duktape-2.5.0/src-input/duk_bi_array.c:1020-1107 | the segment is returned as a new array with its holes, and the slots in front of it, the new values and the slots behind it are what is left |
| `SortOrder.DefaultIsConsistent` | duktape-2.5.0/src-input/duk_js_ops.c:726-777 | comparing coerced strings bytewise is a total preorder, whatever the coercion gives |
| `SortOrder.DataCompareTransitive` | duktape-2.5.0/src-input/duk_js_ops.c:726-754 | the byte comparison with lengths as tie break is transitive |
| `SortOrder.DataCompareFlip` | duktape-2.5.0/src-input/duk_js_ops.c:726-754 | swapping the operands flips the sign |
| `SortOrder.DataCompareIsLexicographic` | duktape-2.5.0/src-input/duk_js_ops.c:726-754 | a string is smaller exactly when it is a proper prefix or has the smaller byte at the first place where both differ, and the comparison gives 0 exactly for equal strings |
| `SortOrder.SlotRankFlip` | duktape-2.5.0/src-input/duk_bi_array.c:668-707 | the order on slots is antisymmetric with undefined after values and holes last |
| `SortOrder.LeqTransitive` | duktape-2.5.0/src-input/duk_bi_array.c:668-707 | the order on slots is transitive for a consistent comparator |
| `SortOrder.SortedLayout` | duktape-2.5.0/src-input/duk_bi_array.c:668-707 | a sorted array holds the defined values, then the undefined ones, then the holes |
| `SortOrder.SortedMeans` | duktape-2.5.0/src-input/duk_bi_array.c:668-707 | behind each slot of a sorted array stands none that belongs before it: by default the later value's string is equal or lexicographically greater, and a callback does not put the earlier value behind the later one |
| `ArraySort.PickPivot` | duktape-2.5.0/src-input/duk_bi_array.c:841-844 | a random number in [0, 1) picks an index inside the range |
| `ArraySort.Compare` | duktape-2.5.0/src-input/duk_bi_array.c:639-756 | the comparison of two indices is the order on their slots, with at most one call of the comparator; equal indices compare equal without a call |
| `ArraySort.ScanRight` | duktape-2.5.0/src-input/duk_bi_array.c:855-865 | with a consistent comparator all slots the left scan passes are not above the pivot, and it stops at one that is not below it or at the end of the range |
| `ArraySort.ScanLeft` | duktape-2.5.0/src-input/duk_bi_array.c:866-876 | with a consistent comparator all slots the right scan passes are not below the pivot, and it stops at one that is not above it or at the start of the range |
| `ArraySort.Partition` | duktape-2.5.0/src-input/duk_bi_array.c:841-903 | any comparator leaves a permutation of the range; a consistent one leaves the pivot between slots not above and not below it |
| `ArraySort.Assembled` | duktape-2.5.0/src-input/duk_bi_array.c:909-911 | a range is sorted when both sides of a separating slot are |
| `ArraySort.QSort` | duktape-2.5.0/src-input/duk_bi_array.c:818-912 | for any pivots and any comparator the sort terminates and permutes the range, holes included; a consistent comparator leaves it sorted |
| `ArraySort.Sort` | duktape-2.5.0/src-input/duk_bi_array.c:914-935 | the whole array is permuted, and for a consistent comparator ascending: values in the lexicographic order of their strings or as the callback says, then undefined, then holes; lengths of 2^31 and more are the length error and change nothing |
| `StringJoin.JoinedLength` | duktape-2.5.0/src-input/duk_api_string.c:33-59 | the joined string is as long as its items and separators together |
| `StringJoin.JoinedInParts` | duktape-2.5.0/src-input/duk_bi_array.c:405-414 | replacing the first strings by their join does not change what the whole joins to |
| `StringJoin.ItemsInPlace` | duktape-2.5.0/src-input/duk_api_string.c:64-84 | each item stands in the joined string behind all items and separators before it, followed by a separator unless it is the last |
| `ArrayJoin.ElementInJoin` | duktape-2.5.0/src-input/duk_bi_array.c:421-437 | in a join a hole, undefined and null leave nothing between the separators around them, and any other element is there with its string |
| `StringJoin.ProductLimit` | duktape-2.5.0/src-input/duk_api_string.c:33-41 | dividing the limit decides exactly whether the product of two lengths is above it |
| `StringJoin.GapLength` | duktape-2.5.0/src-input/duk_api_string.c:28-44 | the separators' length, or an error exactly when it is above the limit; the product is not taken when it would be too large |
| `StringJoin.JoinLength` | duktape-2.5.0/src-input/duk_api_string.c:28-59 | the length check fails exactly when the joined string is longer than the maximum, with every sum in the size type |
| `StringJoin.JoinFill` | duktape-2.5.0/src-input/duk_api_string.c:64-84 | the buffer is filled with exactly the joined string and the write index ends at its length |
| `StringJoin.ConcatAndJoin` | duktape-2.5.0/src-input/duk_api_string.c:7-108 | the top strings, and the separator below them in a join, are replaced by their concatenation or join; negative counts and too long results are errors |
| `ArrayJoin.JoinBatch` | duktape-2.5.0/src-input/duk_bi_array.c:405-414 | an intermediate join keeps what the strings on the stack join to, or fails exactly when that is too long |
| `ArrayJoin.Join` | duktape-2.5.0/src-input/duk_bi_array.c:366-442 | join gives the separator-joined string of all elements, or the length error exactly when that string is too long, and never has more values on the stack than were reserved |
| `BytecodeFormat.ClearFinalizer` | duktape-2.5.0/src-input/duk_api_bytecode.c:272-274 | the finalizer flag is cleared and every other flag kept |
| `BytecodeLaws.LoadStartBack` | duktape-2.5.0/src-input/duk_api_bytecode.c:400-442 | the fixed-size start is read back field by field |
| `BytecodeLaws.LoadCodeBack` | duktape-2.5.0/src-input/duk_api_bytecode.c:465-480 | all instructions come back, and what follows is left |
| `BytecodeLaws.LoadConstsBack` | duktape-2.5.0/src-input/duk_api_bytecode.c:482-507 | all constants come back with their types |
| `BytecodeLaws.BadConstant` | duktape-2.5.0/src-input/duk_api_bytecode.c:483-507 | a dump in which the type byte of any constant is neither of the two is invalid bytecode, whatever follows that byte |
| `BytecodeLaws.LoadFormalsBack` | duktape-2.5.0/src-input/duk_api_bytecode.c:652-666 | formals come back unless their number is the marker, which reads as no formals |
| `BytecodeLaws.LoadBindingsBack` | duktape-2.5.0/src-input/duk_api_bytecode.c:637-648 | variable bindings come back in order when all names are new and none looks empty to the loader |
| `BytecodeLaws.PutMeans` | duktape-2.5.0/src-input/duk_api_bytecode.c:636-653 | a name put into the variable map names the value put, and every other name keeps its own |
| `StringLength.LengthZero` | duktape-2.5.0/src-input/duk_api_stack.c:2567-2574 | a string has length zero if and only if it has no bytes, begins with a symbol's first byte 0x80, 0x81, 0x82 or 0xff, or has continuation bytes only |
| `StringLength.CountChars` | duktape-2.5.0/src-input/duk_unicode_support.c:301-322 | the small variant counts the bytes that are not continuation bytes |
| `StringLength.CountWord` | duktape-2.5.0/src-input/duk_unicode_support.c:357-379 | flipping the top bits of a 32-bit word and masking counts the continuation bytes of its four bytes |
| `StringLength.CountCharsFast` | duktape-2.5.0/src-input/duk_unicode_support.c:327-397 | the fast variant gives the same count for data at any alignment and in both byte orders |
| `BytecodeLaws.EmptyNameLosesBindings` | duktape-2.5.0/src-input/duk_api_bytecode.c:638-644 | a variable name of length zero, which need not be empty, ends the map early, so bindings are lost |
| `BytecodeLaws.RegisterIsReadAsCount` | duktape-2.5.0/src-input/duk_api_bytecode.c:638-656 | the register that follows such a name is then read as the count of formals |
| `BytecodeLaws.LostNames` | duktape-2.5.0/src-input/duk_api_bytecode.c:638-644 | a function with one variable does not come back when that is named by the empty string, the symbol 0xff 0x61 or the lone continuation byte 0x90 |
| `BytecodeLaws.LoadPropsBack` | duktape-2.5.0/src-input/duk_api_bytecode.c:564-666 | the properties come back, with defaults filled in and nothing more used, if and only if they are portable |
| `BytecodeLaws.LoadBack` | duktape-2.5.0/src-input/duk_api_bytecode.c:374-675 | loading the dump of a function nested to any depth gives its normal form and leaves what follows exactly when it is portable |
| `BytecodeLaws.RoundTrip` | duktape-2.5.0/src-input/duk_api_bytecode.c:677-744 | loading a dumped function gives its normal form and uses exactly the dump if and only if, at every depth, no variable name is empty, a symbol or made of continuation bytes only, and no count of formals is the marker |
| `BytecodeLaws.DumpAgain` | duktape-2.5.0/src-input/duk_api_bytecode.c:219-358 | dumping the normal form of any function gives the same bytes as dumping the function |
| `BytecodeLaws.SmallDump` | duktape-2.5.0/src-input/duk_api_bytecode.c:17-358 | the dump of one function byte by byte: marker, big-endian words in the order of the format, constant types, cleared finalizer bit, defaults of absent properties, closing name and marker of absent formals |
| `BytecodeLaws.LoadedDumpIsStable` | duktape-2.5.0/src-input/duk_api_bytecode.c:677-744 | whatever a portable function's dump loads to dumps to the same bytes again |
| `BytecodeWriter.BufWriter.Ensure` | duktape-2.5.0/src-input/duk_util_bufwriter.c:54-89 | there is room for the bytes asked for and what was written is kept |
| `BytecodeWriter.BufWriter.WriteStrRaw` | duktape-2.5.0/src-input/duk_api_bytecode.c:48-63 | a length and that many bytes are written into room that was made |
| `BytecodeWriter.BufWriter.DumpU32` | duktape-2.5.0/src-input/duk_api_bytecode.c:121-134 | a word is written after room is made for it |
| `BytecodeWriter.BufWriter.DumpString` | duktape-2.5.0/src-input/duk_api_bytecode.c:85-101 | a string is written after room is made for it |
| `BytecodeWriter.BufWriter.DumpBufferProp` | duktape-2.5.0/src-input/duk_api_bytecode.c:103-119 | a buffer is written, or an empty one when the property is absent |
| `BytecodeWriter.BufWriter.DumpVarmap` | duktape-2.5.0/src-input/duk_api_bytecode.c:136-176 | all bindings are written and closed by an empty name, each into room made for it |
| `BytecodeWriter.BufWriter.DumpFormalNames` | duktape-2.5.0/src-input/duk_api_bytecode.c:178-217 | the count and the names are written, or the marker when there are no formals |
| `BytecodeWriter.BufWriter.DumpStartAndCode` | duktape-2.5.0/src-input/duk_api_bytecode.c:250-291 | the room made at once holds the start and all instructions |
| `BytecodeWriter.BufWriter.DumpOneConst` | duktape-2.5.0/src-input/duk_api_bytecode.c:297-313 | a string or number constant is written after its type byte |
| `BytecodeWriter.BufWriter.DumpFunc` | duktape-2.5.0/src-input/duk_api_bytecode.c:219-358 | the buffer grows by exactly the dump of the function, and no raw write goes past the room made for it |
| `BytecodeWriter.DumpToBuffer` | duktape-2.5.0/src-input/duk_api_bytecode.c:677-706 | the resulting buffer is exactly the marker and the dump |
| `BytecodeReader.Cursor.ReadStr` | duktape-2.5.0/src-input/duk_api_bytecode.c:27-46 | a string or buffer is read and the pointer ends behind it |
| `BytecodeReader.Cursor.ReadVarmap` | duktape-2.5.0/src-input/duk_api_bytecode.c:637-650 | the loop up to a name of length zero reads the bindings that the format defines, a repeated name replacing the earlier value |
| `BytecodeReader.Cursor.ReadFormals` | duktape-2.5.0/src-input/duk_api_bytecode.c:652-666 | the formals are read unless their count is the marker |
| `BytecodeReader.Cursor.ReadConst` | duktape-2.5.0/src-input/duk_api_bytecode.c:484-506 | a constant is read by its type byte, any other type byte is malformed |
| `BytecodeReader.Cursor.ReadFunc` | duktape-2.5.0/src-input/duk_api_bytecode.c:374-675 | the recursive loader reads what the format defines, and the pointer ends behind it |
| `BytecodeReader.LoadFromBuffer` | duktape-2.5.0/src-input/duk_api_bytecode.c:708-744 | loading a buffer is loading by the format; without the marker it is malformed |
| `TypedArraySpec.TableIsExact` | duktape-2.5.0/src-input/duk_bi_buffer.c:75-115 | the table allows a byte copy for exactly the pairs of integer types between which conversion keeps every byte pattern |
| `TypedArraySpec.ByteIdentity` | duktape-2.5.0/src-input/duk_bi_buffer.c:75-115 | for a pair in the table, reading and writing an element gives its bytes back |
| `TypedArraySpec.ClampChanges` | duktape-2.5.0/src-input/duk_bi_buffer.c:82-84 | a signed byte -1 becomes 0 in a clamped array, which is why that pair is left out |
| `TypedArraySpec.ConvertedIdentity` | duktape-2.5.0/src-input/duk_bi_buffer.c:1720-1731 | converting a whole source of a compatible type is the identity on its bytes |
| `TypedArraySpec.Converted` | duktape-2.5.0/src-input/duk_bi_buffer.c:1668-1671 | the conversion of a source is as long as its number of elements times the target's element size; what its elements hold, `ConvertedMeans` says |
| `TypedArraySpec.ConvertMeans` | duktape-2.5.0/src-input/duk_bi_buffer.c:481-523 | the number read back from a converted element is in the target type's range and, for clamped bytes, as near to the source's number as any of 0 to 255, and for all other types equal to it up to a multiple of the number of values of the type |
| `TypedArraySpec.ConvertedMeans` | duktape-2.5.0/src-input/duk_bi_buffer.c:1790-1807 | the same of every element of a converted source, at its place |
| `TypedArray.ScaleIsExact` | duktape-2.5.0/src-input/duk_bi_buffer.c:1625-1631 | shifting left and back in 32 bits detects exactly the byte lengths that do not fit |
| `TypedArray.CopyElements` | duktape-2.5.0/src-input/duk_bi_buffer.c:1790-1808 | the element loop writes the conversion of the original source when the areas do not overlap or the source is a copy |
| `TypedArray.CopyOverlapping` | duktape-2.5.0/src-input/duk_bi_buffer.c:1759-1773 | with a temporary copy the result is the same for overlapping areas of different element sizes |
| `TypedArray.CopyView` | duktape-2.5.0/src-input/duk_bi_buffer.c:1709-1808 | all three paths write the conversion of the original source |
| `TypedArray.Measure` | duktape-2.5.0/src-input/duk_bi_buffer.c:1620-1683 | the shift tests and the nominal size check accept exactly the offsets and sources whose elements fit the target, without wrapping, and give their place and length in bytes |
| `TypedArray.Set` | duktape-2.5.0/src-input/duk_bi_buffer.c:1596-1810 | the target range becomes the element-wise conversion of the original source, clamped or wrapped as `ConvertedMeans` says, every other byte is unchanged, however the views overlap; a negative offset and a range outside the target are errors and change nothing |
| `Memory.MemMove` | duktape-2.5.0/src-input/duk_bi_buffer.c:1727 | a stretch of memory is moved as if it had been copied first |
| `VarintSpec.RoundTrip` | duktape-2.5.0/src-input/duk_bi_buffer.c:2421-2500 | the low bytes of an integer read back as that integer if and only if the field can hold it |
| `VarintSpec.WriteBack` | duktape-2.5.0/src-input/duk_bi_buffer.c:2696-2758 | writing back what was read restores the bytes |
| `VarintSpec.DigitsOfNumber` | duktape-2.5.0/src-input/duk_bi_buffer.c:2737-2745 | adding multiples of 256^n does not change the n bytes written |
| `VarintSpec.ByteOrders` | duktape-2.5.0/src-input/duk_bi_buffer.c:2696-2758 | in big-endian order a byte added at the end of a field is its least significant one, and in little-endian order a byte added in front |
| `VarintField.Gather64` | duktape-2.5.0/src-input/duk_bi_buffer.c:2450-2468 | gathering in either byte order with 64-bit shifts gives the unsigned value |
| `VarintField.SignExtend` | duktape-2.5.0/src-input/duk_bi_buffer.c:2470-2477 | the unsigned left shift and signed right shift extend the sign |
| `VarintField.Read64` | duktape-2.5.0/src-input/duk_bi_buffer.c:2450-2479 | the 64-bit reader gives the field's value for every width and byte order |
| `VarintField.ReadDouble` | duktape-2.5.0/src-input/duk_bi_buffer.c:2480-2497 | the reader without 64-bit integers gives the same value |
| `VarintField.TopBit` | duktape-2.5.0/src-input/duk_bi_buffer.c:2481-2487 | the most significant byte decides the sign |
| `VarintField.Write64` | duktape-2.5.0/src-input/duk_bi_buffer.c:2719-2745 | the 64-bit writer writes exactly the low bytes of the value and changes no other byte |
| `VarintField.WriteDouble` | duktape-2.5.0/src-input/duk_bi_buffer.c:2746-2755 | the writer without 64-bit integers writes the same bytes for values that are not negative |
| `VarintField.ReadField` | duktape-2.5.0/src-input/duk_bi_buffer.c:2421-2518 | a width outside 1 to 6 or a field outside the buffer is the range error, or NaN when assertions are off |
| `VarintField.WriteField` | duktape-2.5.0/src-input/duk_bi_buffer.c:2577-2792 | a bad width or place changes nothing and is the range error, or the offset after the field when assertions are off |
| `VarintField.WriteThenRead` | duktape-2.5.0/src-input/duk_bi_buffer.c:2421-2758 | a field read right after it was written has the written value exactly when it is in the signed or unsigned range |
| `DebugValues.PrefixCode` | duktape-2.5.0/debugger/duk_debug.js:625-798 | a complete value at the front of the buffer, or a bad byte there, stays what it is when more bytes come |
| `DebugValues.ParseFormatted` | duktape-2.5.0/debugger/duk_debug.js:860-1009 | parsing a formatted value, whatever follows, gives the value and uses exactly its bytes if and only if the value is encodable |
| `DebugValues.IntParts` | duktape-2.5.0/debugger/duk_debug.js:952-977 | an integer comes back from its shortest form exactly when it has 32 bits |
| `DebugValues.CharsBack` | duktape-2.5.0/debugger/duk_debug.js:138-169 | characters come back exactly when all are below 256 |
| `DebugValues.OtherNumbersBack` | duktape-2.5.0/debugger/duk_debug.js:947-977 | a double and a whole number beyond 32 bits come back as the raw number of their eight bytes |
| `DebugValues.InitialBytes` | duktape-2.5.0/doc/debugger.rst:724-797 | the initial byte of every value is the one the protocol documents for its type |
| `DebugValues.HeaderFields` | duktape-2.5.0/doc/debugger.rst:738-796 | the value of an integer and the length of a string or a buffer stand in the header most significant byte first, in the low bits of the initial byte for the short forms |
| `DebugStream.ScanAppend` | duktape-2.5.0/debugger/duk_debug.js:625-798 | parsing may stop at an incomplete value and go on when more bytes come |
| `DebugStream.ChunkingIsIrrelevant` | duktape-2.5.0/debugger/duk_debug.js:569-823 | the messages emitted, the open message, the number of values, the error event and the closing depend only on the bytes received, not on their division into chunks |
| `DebugStream.MessagesArrive` | duktape-2.5.0/debugger/duk_debug.js:569-1009 | any well-formed messages, formatted one after the other and received in any chunks, are emitted in order with nothing left over |
| `DebugParser.ParseOne` | duktape-2.5.0/debugger/duk_debug.js:626-794 | one trial parse gives the value at the front, asks for more bytes, or finds a bad initial byte |
| `DebugParser.Parser.OnData` | duktape-2.5.0/debugger/duk_debug.js:569-823 | the data handler consumes all complete values of its buffer and the chunk, emits each finished message, and closes at a bad byte; a closed parser ignores its input |
| `DebugParser.FeedChunks` | duktape-2.5.0/debugger/duk_debug.js:569-823 | a parser fed chunk by chunk has received exactly what the bytes say |
| `Xoroshiro.StepBits` | duktape-2.5.0/misc/xoroshiro128plus.c:32-46 | every bit of the next state as a combination of bits of this one, by the distances 55, 14 and 36 |
| `Xoroshiro.AdvanceIsLinear` | duktape-2.5.0/misc/xoroshiro128plus.c:36-46 | a step of the XOR of two states is the XOR of the steps |
| `Xoroshiro.AdvanceIsInvertible` | duktape-2.5.0/misc/xoroshiro128plus.c:36-46 | a step is a bijection of the 128-bit state, with the inverse given |
| `Xoroshiro.NonzeroForever` | duktape-2.5.0/misc/xoroshiro128plus.c:26-46 | a run reaches the all-zero state only from the all-zero state |
| `Xoroshiro.RunsNeverMerge` | duktape-2.5.0/misc/xoroshiro128plus.c:36-46 | runs from different states never meet at the same step |
| `Xoroshiro.AfterIsLinear` | duktape-2.5.0/misc/xoroshiro128plus.c:36-46 | any number of steps is linear |
| `Xoroshiro.JumpCommutes` | duktape-2.5.0/misc/xoroshiro128plus.c:53-69 | jumping and stepping any number of times commute |
| `Xoroshiro.SumIsLinear` | duktape-2.5.0/misc/xoroshiro128plus.c:53-69 | the jump is linear over XOR |
| `Xoroshiro.SumMeans` | duktape-2.5.0/misc/xoroshiro128plus.c:39 | the output sum of words without a common bit is their union, and of a word with itself the word moved up by one place |
| `Xoroshiro.Generator.Next` | duktape-2.5.0/misc/xoroshiro128plus.c:36-46 | the state takes one step, and the result is the wrapped sum of the old words |
| `Xoroshiro.Generator.Jump` | duktape-2.5.0/misc/xoroshiro128plus.c:53-69 | the state becomes the XOR of the following states that the JUMP bits select |

## Left out

- PromiseEquivalence.OptimizationIsUnobservable: leaves out runs with `Promise.race`, whose generic path shares one pair between all promises while the optimized one does not.
- PromiseSettling.OneAuthority: is about hooks that do not call promise code, as are the statements of `PromiseQueue`, `PromiseThen`, `PromiseEquivalence` and `PromiseRuntime`; that a promise settles at most once, and all statements on notifications, are proved with hooks that do.
- PromiseTracker.CheckReportsExactly: is about hooks that do not call promise code, as are `RunsHandled` and `EveryCheckIsRight`; `PromiseReports.CheckedExactly` is the statement for those that do.
- PromiseRunner.RunQueue: what user code and hooks do is an input, and the method stops early when that input ends while a call is open or work is left; a `runQueue` called again from inside is not modelled. A hook may enter a `then` getter that returns only after the hook, which adds runs.
- PromiseRuntime.PromiseCore.StartResolve: reading the 'then' property and calling handlers is left to the environment; an executor that throws is one that calls reject.
- Promise.all, Promise.try and the static helpers are user code as far as the machine is concerned: they only use pairs and `then`.
- ValueStack.Stack.Pack: requires a free slot when the count is valid, because pushing the array does not check for one in the source.
- StackRuns.Execute: packing, opening a gap and taking out a stretch change nothing where their callers have not made sure of the place, which the source only asserts.
- ValueStack.Heap.Decref: a count that reaches zero is an event; freeing the object, and with it the references it holds, is not modelled, and neither are finalizers, garbage collection and errors thrown by them.
- ValueStack.Stack.RemoveN: the variant that removes values one by one, for builds preferring size, is left out.
- ValueStack.Stack.Resize: whether memory is available is a parameter; a reallocation is a copy into a new array.
- ValueStack.XCopyMove: requires two stacks on one heap with separate slots, as the source asserts.
- ArraySort.QSort: the comparator may answer differently at every call but does not change the array; random numbers are parameters in [0, 1).
- SparseArray.Array.Splice: own index properties only, without getters, setters, proxies or inherited elements; sums of indices are taken without the signed 32-bit overflow of very long intermediate arrays.
- ArrayJoin.Join: coercing an element to a string is a parameter, so that side effects of the coercion are left out; the stack is the part of the value stack that join pushes itself.
- BytecodeFormat.Load: stands for the loader on input that is long enough; beyond the end of input, where the source does not check, it gives `Overrun`, and a string above the maximum length counts as such.
- BytecodeLaws.RoundTrip: requires what holds of every function, 32-bit counts and distinct variable names; environments, prototypes and the class of numbers (fast integer or double) are not modelled, nor is running out of memory or stack, and all build options for names, file names, line tables and debugger lines are on. Flags are taken without the heap type, which the source masks out, and a length property as the 32-bit word it is cast to.
- StringLength.Length: the length without the option to prefer size, which looks the length up as a property and for a symbol casts NaN, with a platform specific result.
- BytecodeWriter.BufWriter.Ensure: the error for a buffer beyond the maximum size, and the copy of whole instruction blocks on big-endian platforms, are left out.
- TypedArray.Set: integer elements only, views covered by their buffers with whole elements; the two buffers are one memory, so that distinct buffers are areas that do not overlap. Floating-point elements, plain arrays as sources and detached buffers are left out.
- VarintField.WriteDouble: proved for values that are not negative; how the remainder of a negative double is cast to a byte depends on the platform.
- VarintField.Write64: takes the integer that the number is cast to; casting NaN, infinities and out-of-range numbers is platform specific.
- DebugStream.ChunkingIsIrrelevant: says what is emitted, not which bytes remain buffered after a bad byte, which depends on the chunks; the version handshake before the first message, errors and closing of the underlying stream, and listeners that close the parser are left out.
- DebugValues.ParseFormatted: pointers and data are byte sequences instead of hexadecimal text, the readable copy of a double's value is left out, and the bytes of a whole number beyond 32 bits are a parameter.
- Xoroshiro.Generator.Jump: that the jump equals 2^64 steps rests on the constant in the source and is not proved.
- The hex codec, JSON wrappers, and everything else in the repository: compiler, executor, object model, garbage collector, build and test tools.
