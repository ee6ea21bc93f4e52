# LayerFS worker protocol, control bridge, line merge and source scanners

This project models the parts of LayerFS whose correctness spans many steps or
many functions, and proves what they promise.

- **Worker and its Stores** (`StoreLedger`, `StoreTable`, `StoreSafety`,
  `StoreRuns`, `StoreReplies`, `StoreShutdown`, `StoreMeasure`, `StoreEnding`,
  `WorkerServer`). The worker keeps one table of open Stores by path. Calls, idle
  timers, releases, closes and shutdown interleave at every `await`; each piece
  of code between two awaits is one step. `Worker` is the object itself, its
  methods are the steps, and the results hold for every run. `StoreReplies` says
  why each reply is given, `StoreEnding` that a shutdown comes to its end.
- **Client and connection** (`ClientLink`, `ClientConnection`,
  `WorkerSession`). A call is written at most once, waits for the greeting, is
  resolved by the worker's answer to it, and is answered truthfully when the
  connection is lost, whatever the worker did.
- **Frames** (`FrameStream`, `PackedValue`, `Base64`, `FrameValues`,
  `FrameForm`, `SampleText`). The incremental reader delivers what a whole-stream
  parse means, under any chunking; packed values come back unchanged. `FrameForm`
  says what stands on the wire and what is refused; `SampleText` is one JSON text
  that meets what is asked of JSON.
- **Control records** (`Wire`, `Codec`, `ListCodec`, `Record`, and the records
  built on them). A record is described by a codec: what an encoder appends at
  a given length, what a decoder takes, and what a value becomes on the way.
  The laws of a codec are kept by every combinator, so they hold of every
  request and every reply form. `SdkWire`, `MergeWire`, `MergeReaders`,
  `CallWire` and `CallReaders` are the encoders and decoders over `Writer` and
  `Reader`, written apart as in the source and each proved against its codec.
  `ReportLength` and `MergedLength` compute record lengths by arithmetic alone.
- **The bytes of a record** (`Bytes`, `Spelling`, `RecordBytes`, `CallFormat`,
  `ReplyRecords`, `AnswerFormat`). Plain byte functions, with every tag, width,
  order and limit as a literal, that mention no codec; and proofs that the codecs
  write those bytes, and exactly when they write at all.
- **Merge diagnostics** (`SdkWindows`, `Calendar`, `Decimal`, `UtcText`). Byte
  windows that dominate the encoded size, and the civil-date text.
- **Line merge** (`LineDiff`, `LineMerge`). The line difference, the matching
  taken from it, the three-way merge with its marker blocks, and the marker scan.
- **Source scanners** (`RustScanner`, `RustTokens`, `RustBlanking`,
  `CfgFormula`, `TestOnlyFiles`). Blanking Rust comments, measured against Rust's own tokens;
  reading `cfg` predicates; and the fixpoint of test-only files.

Bytes are integers from 0 to 255, a Rust `String` is a byte sequence that is
well-formed UTF-8 (section 4 of RFC 3629), and a record holds at most 65,519
bytes: the 65,535-byte message limit in section 3 of the Noise Protocol
Framework less a 16-byte tag.

Where the source promises less than its comments suggest, the model follows the
code. Each case has a lemma at an input and one that says, for all inputs, when
it happens:

- A conflict report settles how many conflicts it holds from their paths alone,
  so hunk text can still overrun the record: `HunkTextCanRefuse`; and by length
  for every report: `ReportEncodes`.
- A clipped path or line does not raise `truncated`: `LongPathLosesItsEnd`, and
  `UnflaggedCanDiffer` for every report.
- A merged Commit drops decisions without any mark: `DecisionsAreLost`, and
  `MergedArrives` for every Commit.
- A hunk's line number above 2^32 - 1 arrives reduced: `WideLineArrivesAsZero`,
  and `HunkItemIs` for every hunk.
- The SDK value encoder does not look at field names: `RepeatedNameIsRefused`,
  and `UniqueNamesDecide` for every value.
- The time text is a date-time of section 5.6 of RFC 3339 and sorts by time only
  for seconds from -62,167,219,200 to 253,402,300,799 and nanoseconds below 10^9:
  `YearTenThousand`; `UtcReadsBack`, `UtcOrder` and `OutOfRangeIsMissorted` for
  every instant.
- Long texts whose middles exceed the table are not compared line by line:
  `LongTextsKeepNothing`, and `DiffIsLongest` for all texts.
- A marker label that holds a newline moves the hunks away from the lines they
  name: `HunksAreInPlace` is an equivalence over all texts and labels.
- A doubly negated `test` is not recognised as test-only, and a comma inside an
  option can make a production predicate pass for test-only: `NegationIsNotRead`,
  `CommaMisleads`, and `CheckerIsExact` for every predicate whose options have
  matched parentheses.
- A raw byte or C string is scanned with escapes: `RawByteStringIsMisread`. When
  the tokens found are Rust's is `TokensAgree`, and when what is blanked is right
  is `BlanksRustComments`, both for every Rust text; `HeaderIsKept` shows that
  these are two questions.

## Model

| member | source | states |
|---|---|---|
| `StoreLedger.OpensNeverOverlap` | api/runtime/src/worker/server.js:114-146 | in any log of binding calls the discipline accepts, an open of a path starts only after every earlier open of it failed or had its close settled |
| `StoreLedger.ClosedAtMostOnce` | api/runtime/src/worker/server.js:114-124 | `storeClose` is called at most once for one `storeOpen` |
| `StoreLedger.WorkOnlyWhileOpen` | api/runtime/src/worker/server.js:127-146 | work starts only on an entry that opened and whose close was not called |
| `StoreSafety.CloseStoreKeeps` | api/runtime/src/worker/server.js:114-124 | `closeStore` keeps the table's invariant, refuses Busy exactly when the path's Store has users, and does nothing exactly when none is held |
| `StoreSafety.EnterKeeps` | api/runtime/src/worker/server.js:128-132 | entering a Store, by opening it, sharing it or waiting for its close, keeps the invariant |
| `StoreSafety.OpenFailsKeeps` | api/runtime/src/worker/server.js:134-139 | a refused or thrown open takes its entry out of the table and its user off the count |
| `StoreSafety.WorkEndsKeeps` | api/runtime/src/worker/server.js:140-145 | the end of work lowers the count and arms the timer only on the last user of the table's own entry |
| `StoreSafety.TimerKeeps` | api/runtime/src/worker/server.js:143 | a firing idle timer closes an entry no call uses |
| `StoreSafety.CloseSettlesKeeps` | api/runtime/src/worker/server.js:119-121 | a settled close, failed or not, takes exactly its own entry out of the table |
| `StoreSafety.DrainFindsIdle` | api/runtime/src/worker/server.js:155-163 | the final phase never meets a Busy Store |
| `StoreSafety.StepKeeps` | api/runtime/src/worker/server.js:110-191 | every step of the worker keeps the invariant: user counts are the calls using an entry, timers are armed only on idle entries of the table, and the table agrees with the binding's log |
| `StoreRuns.RunKeeps` | api/runtime/src/worker/server.js:110-191 | the invariant holds in every reachable state of every run |
| `StoreRuns.StoresAreSerial` | api/runtime/src/worker/server.js:110-146 | in every interleaving, opens of a path never overlap, work runs only on an opened and not yet closed entry, and no entry is closed twice |
| `StoreRuns.WorkHoldsItsEntry` | api/runtime/src/worker/server.js:127-146 | whenever work runs, its entry opened, is not closing and is still the table's entry; an armed timer's entry is idle |
| `StoreRuns.ShutdownIsFinal` | api/runtime/src/worker/server.js:155-189 | once shutdown began no call is admitted, its flags never fall back, so the final phase is entered at most once, and after it nothing changes |
| `StoreRuns.FinalPhase` | api/runtime/src/worker/server.js:155-163 | the final phase runs with no active call, no close it issues is Busy, and it ends with an empty table even if closes fail |
| `StoreRuns.DrainGoesOn` | api/runtime/src/worker/server.js:159 | until the drain is over, the step it takes or waits for is possible and brings it closer to the end; while it waits for a `storeClose` in flight that step is the settling of it, with either answer |
| `StoreRuns.DrainEnds` | api/runtime/src/worker/server.js:155-163 | whatever each close answers, a bounded number of such steps ends the final phase with an empty table |
| `StoreRuns.DrainNeverBack` | api/runtime/src/worker/server.js:155-163 | no step at all sets the drain back |
| `StoreRuns.NoCallIsStuck` | api/runtime/src/worker/server.js:126-153 | every admitted call has its own next step enabled, or the step it awaits |
| `StoreShutdown.LastCallStartsFinalPhase` | api/runtime/src/worker/server.js:155-189 | in every reachable state a closing worker with no active call is in its final phase, with its drain under way or over: the last call to return starts it |
| `StoreEnding.OwnStepLess` | api/runtime/src/worker/server.js:114-189 | once the worker is closing, every step of its own, every answer it awaits and every timer leaves strictly less to do, in any order |
| `StoreEnding.AskedAgain` | api/runtime/src/worker/server.js:155-158 | asked again to shut down, a closing worker changes nothing |
| `StoreEnding.ShutdownCompletes` | api/runtime/src/worker/server.js:114-189 | from any reachable closing state, in whatever order such steps come, only a bounded number is possible, another one is until the drain is over, and then the table is empty |
| `StoreEnding.ShutdownCanComplete` | api/runtime/src/worker/server.js:114-189 | and from every such state some steps of that kind reach the end of the drain with an empty table |
| `StoreReplies.RepliesHaveCauses` | api/runtime/src/worker/server.js:114-153 | every reply a step gives has its cause: Busy only for the release of a used Store, an open's refusal or exception only where the open gave it, an exception for a failed close, and else what the binding answered |
| `StoreReplies.CallsBegin` | api/runtime/src/worker/server.js:114-132 | how a call begins: a release of nothing succeeds, of a used Store is Busy, of a free one waits for the close; a call with a Store opens it, waits for its close or uses it and stops its timer |
| `StoreReplies.EntriesGoOn` | api/runtime/src/worker/server.js:114-146 | what each step of an entry does to it, to the table and to the log of binding calls |
| `StoreReplies.IdleIsTimed` | api/runtime/src/worker/server.js:141-145 | in every reachable state an opened Store of the table that no call uses has its timer armed or is being closed |
| `WorkerServer.Worker.CloseStore` | api/runtime/src/worker/server.js:114-124 | the method's new state is the step's, with the answer nothing held, Busy or closing |
| `WorkerServer.Worker.EnterStore` | api/runtime/src/worker/server.js:128-132 | the updates in place are those of the specified entry: wait, hold or open |
| `WorkerServer.Worker.LeaveStore` | api/runtime/src/worker/server.js:141-145 | the updates in place are those of the specified finally block |
| `WorkerServer.Worker.OpenContinues` | api/runtime/src/worker/server.js:134-140 | the updates in place are the step's, and the invariant is kept |
| `WorkerServer.Worker.Receive` | api/runtime/src/worker/server.js:181-186 | a call is admitted and counted unless the worker is closing, and the invariant is kept |
| `WorkerServer.Worker.Begin` | api/runtime/src/worker/server.js:148-153 | the updates in place are the step's for a release, a call with a Store and a call without, and the invariant is kept |
| `WorkerServer.Worker.CloseSettles` | api/runtime/src/worker/server.js:119-121 | the updates in place are the step's, and the invariant is kept |
| `WorkerServer.Worker.Shutdown` | api/runtime/src/worker/server.js:155-158 | the updates in place are the specified ones: the final phase starts only with no active call and only once |
| `WorkerServer.Worker.Finish` | api/runtime/src/worker/server.js:187-189 | a finished call lowers the count and, when it was the last of a closing worker, starts the final phase, which `LastCallStartsFinalPhase` says of every run without naming the step; the invariant is kept |
| `WorkerServer.Worker.DrainNext` | api/runtime/src/worker/server.js:159 | the updates in place are the step's, and the invariant is kept |
| `WorkerServer.Worker.WorkEnds` | api/runtime/src/worker/server.js:140-145 | the updates in place are the step's, and the invariant is kept |
| `WorkerServer.Worker.TimerFires` | api/runtime/src/worker/server.js:143 | the updates in place are the step's, and the invariant is kept |
| `WorkerServer.Worker.OpenSettles` | api/runtime/src/worker/server.js:130-134 | the updates in place are the step's, and the invariant is kept |
| `WorkerServer.Worker.DirectEnds` | api/runtime/src/worker/server.js:151-152 | the updates in place are the step's, and the invariant is kept |
| `WorkerServer.Worker.CloseWaitEnds` | api/runtime/src/worker/server.js:129 | the updates in place are the step's, and the invariant is kept |
| `WorkerServer.Worker.ReleaseEnds` | api/runtime/src/worker/server.js:122-123 | the updates in place are the step's, and the invariant is kept; a failed close is thrown |
| `WorkerServer.Worker.CloseStarts` | api/runtime/src/worker/server.js:119 | the updates in place are the step's, and the invariant is kept; a rejected open skips `storeClose` |
| `WorkerServer.Worker.ShutdownAsked` | api/runtime/src/worker/server.js:155-158 | the updates in place are the step's, and the invariant is kept |
| `WorkerServer.Worker.DrainWaitEnds` | api/runtime/src/worker/server.js:159 | the updates in place are the step's, and the invariant is kept |
| `WorkerServer.Worker.Perform` | api/runtime/src/worker/server.js:110-191 | every step of the protocol is one of the object's methods, and keeps the invariant |
| `WorkerServer.Replay` | api/runtime/src/worker/server.js:110-191 | any run, performed on a new object, brings it to the state the run reaches, so every result about reachable states is about the object |
| `ClientLink.CallKeeps` | api/agent/src/transport/worker_client.js:87-95 | a new call is pending under a number of its own, written exactly if the greeting arrived |
| `ClientLink.LostKeeps` | api/agent/src/transport/worker_client.js:56-68 | a loss resolves every pending call, and leaves none |
| `ClientLink.GreetKeeps` | api/agent/src/transport/worker_client.js:71-77 | the greeting writes every waiting call once, in order |
| `ClientLink.ReceiveKeeps` | api/agent/src/transport/worker_client.js:70-83 | any frame whatever, from any worker, keeps the client's promises; what it does to each call is `AnswerSettles` and `GreetingSends` |
| `ClientLink.AnswerSettles` | api/agent/src/transport/worker_client.js:78-82 | an answer to a pending call takes it from the pending ones and resolves it, as unknown if the worker threw and as that answer otherwise; every other call, the writes and the flags stay; an answer to no pending call changes nothing |
| `ClientLink.LossTells` | api/agent/src/transport/worker_client.js:56-68 | a loss resolves each pending call as unknown if it was sent and as not sent otherwise, and changes no earlier outcome |
| `ClientLink.GreetingSends` | api/agent/src/transport/worker_client.js:70-77 | the first greeting marks every waiting call as sent and writes it once, in order; another greeting or anything else under number 0 is a loss |
| `ClientLink.CallIsKept` | api/agent/src/transport/worker_client.js:87-95 | a new call takes the next number, waits beside the others, and is written at once exactly when the greeting arrived |
| `ClientConnection.Connection.Call` | api/agent/src/transport/worker_client.js:87-95 | the method's new state is the specified one, and a closed connection refuses |
| `ClientConnection.Connection.Lost` | api/agent/src/transport/worker_client.js:56-68 | the method's new state is the specified one: unsent calls fail, sent ones are unknown |
| `ClientConnection.Connection.Receive` | api/agent/src/transport/worker_client.js:70-83 | the method's new state is the specified one for a greeting, an answer to a pending call, which `AnswerSettles` says is resolved with it, and an unknown number |
| `ClientConnection.Connection.Greeted` | api/agent/src/transport/worker_client.js:73-76 | the loop writes the waiting calls as specified |
| `WorkerSession.SessionIsSafe` | api/agent/src/transport/worker_client.js:45-99 | over every run of client, connection and worker: no call is written or made twice, every call is pending or resolved and all are resolved at a loss, before the greeting none is written and after it all are, and every outcome is true |
| `WorkerSession.AnswerIsHeard` | api/agent/src/transport/worker_client.js:78-82 | hearing the worker's answer to a pending call resolves that call with that answer |
| `WorkerSession.HeardAnswersAreTold` | api/agent/src/transport/worker_client.js:70-83 | over every run, each answer the client has heard is the outcome of its own call unless the connection was lost before: none is thrown away |
| `WorkerSession.WorkerAnswersAll` | api/runtime/src/worker/server.js:164-191 | over every run, until the worker drops the socket, each call it took is made or declined, and each call that ended or was declined is answered |
| `WorkerSession.ResolvedForGood` | api/agent/src/transport/worker_client.js:56-83 | the outcome of a call never changes |
| `WorkerSession.NotSentIsNeverMade` | api/agent/src/transport/worker_client.js:61-65 | a call answered "not sent" is never made, at any later point of the run |
| `FrameStream.ParseFrame` | api/agent/src/transport/frames.js:51-55 | a framed payload at the head of a stream parses as its value and the meaning of the rest |
| `FrameStream.Reader.OnData` | api/agent/src/transport/frames.js:69-86 | after any chunk, what was delivered and what failed is the parse of all bytes received |
| `FrameStream.ReadChunks` | api/agent/src/transport/frames.js:61-87 | any chunking of a stream delivers the values and the single failure of the whole-stream parse; what that parse makes of lengths, the cap and undecodable payloads is `LongFirstFrameIsRefused` and `FrameIsRead` |
| `FrameForm.FrameIs` | api/agent/src/transport/frames.js:41-55 | a frame is four length bytes, each the digit of its weight, then the JSON text of an array of three: the tag "layerfs-worker", the number 1 and the packed value |
| `FrameForm.LongFirstFrameIsRefused` | api/agent/src/transport/frames.js:74-77 | a first frame whose four length bytes weigh more than the cap fails with that length as soon as they are there, whatever follows |
| `FrameForm.FrameIsRead` | api/agent/src/transport/frames.js:78-85 | any other frame waits until its payload is complete, is delivered when it decodes, and ends the stream when it does not |
| `FrameForm.ShortStreamWaits` | api/agent/src/transport/frames.js:74-78 | fewer than four bytes say nothing yet |
| `FrameForm.EnvelopeIsChecked` | api/agent/src/transport/frames.js:43-48 | a payload decodes if and only if it reads as an array of exactly three with that tag, the number 1 and a readable tree |
| `FrameForm.ReadableUnpacks` | api/agent/src/transport/frames.js:20-40 | a tree unpacks if and only if it is plain or stands under one of the eight tags with the data that tag takes, all the way down |
| `FrameForm.PacksAre` | api/agent/src/transport/frames.js:8-19 | the JSON tree of each kind of value, tag by tag |
| `FrameForm.GroupsAre` | api/agent/src/transport/frames.js:13-15 | every three bytes are four letters of the table in section 4 of RFC 4648, the last group padded |
| `PackedValue.UnpackPack` | api/agent/src/transport/frames.js:8-40 | every supported value packs and unpacks to itself |
| `PackedValue.PackIsInjective` | api/agent/src/transport/frames.js:8-19 | different values never pack alike: no array or object is mistaken for a tag |
| `Base64.DecodeEncode` | api/agent/src/transport/frames.js:13-15 | every byte string's text has the shape `unpack` asks for and decodes to it |
| `FrameValues.DecodeEncode` | api/agent/src/transport/frames.js:42-48 | a payload decodes to the value it encodes |
| `FrameValues.StreamOfFrames` | api/agent/src/transport/frames.js:51-87 | concatenated frames parse as the list of their values |
| `FrameValues.Receive` | api/agent/src/transport/frames.js:51-87 | any list of supported values, framed, concatenated and read under any chunking, is received in order |
| `SampleText.SomeTextIsLossless` | api/agent/src/transport/frames.js:42-48 | what the three results above ask of JSON can be met: one text reads back every plain tree of finite numbers |
| `Bytes.BigEndianAt` | engine/crates/layerfs-bridge/src/wire.rs:21-60 | in a number of k bytes the byte at place i is n / 256^(k-1-i) modulo 256: the first weighs most |
| `Bytes.FromBigEndianIs` | engine/crates/layerfs-bridge/src/wire.rs:53-60 | reading gives the sum of the bytes, each times its weight |
| `Utf8.ValidMeansScalars` | engine/crates/layerfs-bridge/src/wire.rs:68-72 | a byte string is well formed if and only if it spells Unicode scalar values, each in the fewest bytes |
| `Wire.RunTaken` | engine/crates/layerfs-bridge/src/wire.rs:21-25 | a written run is taken back, whatever follows |
| `Wire.TakenIsRun` | engine/crates/layerfs-bridge/src/wire.rs:61-67 | a taken run is its own encoding in front of the rest |
| `Wire.Writer.Put` | engine/crates/layerfs-bridge/src/wire.rs:11-17 | appends exactly the bytes, or refuses and changes nothing exactly over the limit |
| `Wire.Writer.Blob` | engine/crates/layerfs-bridge/src/wire.rs:21-25 | appends length and bytes exactly when both fit |
| `Wire.Reader.Take` | engine/crates/layerfs-bridge/src/wire.rs:41-52 | takes exactly the next bytes or, short of them, nothing |
| `Wire.Reader.Text` | engine/crates/layerfs-bridge/src/wire.rs:68-72 | takes a run within its limit exactly when it is well-formed UTF-8 |
| `Wire.Reader.Finish` | engine/crates/layerfs-bridge/src/wire.rs:73-78 | answers whether every byte was read |
| `SdkValue.PutGet` | engine/crates/layerfs-bridge/src/control_sdk.rs:114-209 | a written value is read back in front of any bytes |
| `SdkValue.GetPut` | engine/crates/layerfs-bridge/src/control_sdk.rs:114-209 | what is read is well formed and its encoding and the rest are the bytes it was read from |
| `SdkValue.StrictIsUnique` | engine/crates/layerfs-bridge/src/control_sdk.rs:192-206 | the name check in the loop refuses exactly the values with a repeated name somewhere |
| `SdkValue.UniqueNamesDecide` | engine/crates/layerfs-bridge/src/control_sdk.rs:114-209 | a value that encodes reads back as itself when its names are unique and is refused when they are not |
| `SdkValue.RepeatedNameIsRefused` | engine/crates/layerfs-bridge/src/control_sdk.rs:138-206 | a value with a repeated name that is written and then refused |
| `SdkValue.VisitsAreFew` | engine/crates/layerfs-bridge/src/control_sdk.rs:171-209 | for every record, accepted or refused, whatever counts it claims, `value` is called at most once per byte and once more, and at most once per byte consumed when it succeeds |
| `SdkValue.BuiltAreFew` | engine/crates/layerfs-bridge/src/control_sdk.rs:171-209 | at most one value is built for each byte an accepted read consumes, and for each byte of the record when it is refused |
| `SdkValue.ValueFieldLaw` | engine/crates/layerfs-bridge/src/control_sdk.rs:114-209 | as a field of any record, encoding and decoding are mutually inverse and no value is a prefix of another |
| `SdkWire.PutValue` | engine/crates/layerfs-bridge/src/control_sdk.rs:114-157 | the recursive writer appends exactly the specified bytes, or fails exactly when they do not exist or do not fit |
| `SdkWire.ReadValue` | engine/crates/layerfs-bridge/src/control_sdk.rs:171-209 | the recursive reader returns what is specified, stops where specified, and calls itself as often as counted |
| `SdkWire.SdkCallLaw` | engine/crates/layerfs-bridge/src/control_sdk.rs:211-228 | call records are inverse both ways |
| `SdkWire.SdkRefusalLaw` | engine/crates/layerfs-bridge/src/control_sdk.rs:230-252 | refusal records are inverse both ways |
| `SdkWindows.CountSpending` | engine/crates/layerfs-bridge/src/sdk_merge_values.rs:88-138 | the count is the longest prefix the window pays for |
| `SdkWindows.CountConflicts` | engine/crates/layerfs-bridge/src/sdk_merge_values.rs:18-42 | the nested loops compute the specified hunk counts |
| `SdkWindows.WindowIsGreedy` | engine/crates/layerfs-bridge/src/sdk_merge_values.rs:18-42 | what is kept is within budget, and neither the next conflict nor the next hunk of any conflict would have been |
| `SdkWindows.ConflictsFit` | engine/crates/layerfs-bridge/src/sdk_merge_values.rs:52-86 | for any conflicts the value encodes in at most 16,384 bytes and a list header |
| `SdkWindows.ConflictsArrive` | engine/crates/layerfs-bridge/src/sdk_merge_values.rs:52-86 | it is decoded as it was built |
| `SdkWindows.ConflictsAreExact` | engine/crates/layerfs-bridge/src/sdk_merge_values.rs:44-86 | a prefix of the conflicts, each with its path, the literal name of its kind, its true block count and a prefix of its hunks; each hunk shows its line and, by name, the texts of ours' and theirs' lines in order; `hunksOmitted` and the truncation flag are exact |
| `SdkWindows.ConflictsCost` | engine/crates/layerfs-bridge/src/sdk_merge_values.rs:10-42 | a conflict takes 256 bytes and its path, a hunk 96 bytes and each line its length and 8; the window is 16,384 |
| `SdkWindows.LwwWindowFits` | engine/crates/layerfs-bridge/src/sdk_merge_values.rs:110-129 | for any decisions the value encodes in at most 16,384 bytes and a list header |
| `SdkWindows.LwwArrive` | engine/crates/layerfs-bridge/src/sdk_merge_values.rs:110-129 | it is decoded as it was built |
| `SdkWindows.LwwAreExact` | engine/crates/layerfs-bridge/src/sdk_merge_values.rs:88-129 | the decisions shown are the longest prefix of which each takes 96 bytes and its texts; path, rule, the kept side by its literal name and deletion are each looked up; the truncation flag is exact |
| `SdkWindows.UtcIsShort` | engine/crates/layerfs-bridge/src/sdk_merge_values.rs:173-191 | every i64 time and u32 nanoseconds has a text of at most 44 characters |
| `SdkWindows.UnitsWindowFits` | engine/crates/layerfs-bridge/src/sdk_merge_values.rs:146-170 | for any units the value encodes in at most 16,384 bytes and a list header |
| `SdkWindows.UnitsAreExact` | engine/crates/layerfs-bridge/src/sdk_merge_values.rs:131-170 | the units shown are the longest prefix of which each takes 192 bytes and its name, with every field looked up by its name; the truncation flag is exact |
| `SdkWindows.UnitsArrive` | engine/crates/layerfs-bridge/src/sdk_merge_values.rs:146-170 | it is decoded as it was built |
| `Calendar.CivilIsTheDate` | engine/crates/layerfs-bridge/src/sdk_merge_values.rs:176-185 | for every day the computed date is a calendar date whose day number is that day |
| `Calendar.CivilIsUnique` | engine/crates/layerfs-bridge/src/sdk_merge_values.rs:176-185 | it is the unique such date |
| `Calendar.CivilFollowsTheCalendar` | engine/crates/layerfs-bridge/src/sdk_merge_values.rs:176-185 | day 0 is 1970-01-01 and each day follows the one before, leap years included |
| `UtcText.UtcReadsBack` | engine/crates/layerfs-bridge/src/sdk_merge_values.rs:172-191 | the text reads back as its instant exactly in range, and out of range is no date-time |
| `UtcText.UtcOrder` | engine/crates/layerfs-bridge/src/sdk_merge_values.rs:172-191 | for seconds of the years 0000 to 9999 and whole nanoseconds, text order is time order |
| `UtcText.YearsAreSeconds` | engine/crates/layerfs-bridge/src/sdk_merge_values.rs:172-191 | the computed year has four digits exactly for those seconds |
| `UtcText.OutOfRangeIsMissorted` | engine/crates/layerfs-bridge/src/sdk_merge_values.rs:172-191 | every other time an i64 and a u32 can hold is missorted against some time they can hold |
| `UtcText.YearTenThousand` | engine/crates/layerfs-bridge/src/sdk_merge_values.rs:172-191 | the first second of year 10000 is no date-time and sorts before the last of year 9999 |
| `HistoryRecords.TokenFaithful` | engine/crates/layerfs-bridge/src/control_history.rs:39-56 | tokens are inverse both ways, and both sides refuse a namespace that is not positive |
| `HistoryRecords.HeadFaithful` | engine/crates/layerfs-bridge/src/control_history.rs:25-38 | optional heads and nodes are inverse both ways |
| `HistoryRecords.CursorFaithful` | engine/crates/layerfs-bridge/src/control_history.rs:57-76 | cursors are inverse both ways, and both sides refuse any width but 160 |
| `HistoryRecords.BranchFaithful` | engine/crates/layerfs-bridge/src/control_history.rs:77-94 | Branch records are inverse both ways |
| `HistoryRecords.BindingFaithful` | engine/crates/layerfs-bridge/src/control_history.rs:95-144 | bindings are inverse both ways |
| `HistoryRecords.MetaLaw` | engine/crates/layerfs-bridge/src/control_history.rs:155-216 | metadata arrives without decisions and units, and the flag says whether decisions are missing |
| `HistoryRecords.CommitBecomes` | engine/crates/layerfs-bridge/src/control_history.rs:145-154 | a Commit record arrives as it is but for its metadata's details |
| `HistoryRecords.OutcomeLaw` | engine/crates/layerfs-bridge/src/control_history.rs:242-268 | outcomes read back in front of anything, and what arrives writes the same bytes |
| `HistoryRecords.MovedFaithful` | engine/crates/layerfs-bridge/src/control_history.rs:286-299 | moved Branch states are inverse both ways |
| `ControlRecords.ReadyFaithful` | engine/crates/layerfs-bridge/src/control_mount.rs:155-219 | Ready receipts are inverse both ways, and both sides refuse an empty directory or a zero mount or root |
| `ControlRecords.WorkFaithful` | engine/crates/layerfs-bridge/src/control_mount.rs:220-259 | work counters are inverse both ways |
| `ControlRecords.MountFaithful` | engine/crates/layerfs-bridge/src/control_mount.rs:274-305 | mount blocks are inverse both ways |
| `ControlRecords.UnforcedFaithful` | engine/crates/layerfs-bridge/src/control_mount.rs:306-347 | a custody without forced facts is inverse both ways, and both sides refuse the Abort stage in it |
| `ControlRecords.CustodyFaithful` | engine/crates/layerfs-bridge/src/control_mount.rs:306-347 | a custody body, any stage, is inverse both ways |
| `ControlRecords.FactsLaw` | engine/crates/layerfs-bridge/src/control_forced.rs:86-124 | forced facts read back with a published outcome's details left out |
| `ControlRecords.ForcedLaw` | engine/crates/layerfs-bridge/src/control_forced.rs:125-150 | forced receipts read back likewise |
| `ControlRecords.HelloFaithful` | engine/crates/layerfs-bridge/src/daemon_wire.rs:7-30 | Hello requests are inverse both ways, and both sides refuse a zero incarnation |
| `ControlRecords.DaemonFaithful` | engine/crates/layerfs-bridge/src/daemon_wire.rs:31-76 | daemon observations are inverse both ways, absent versions included, and both sides refuse a ready daemon without versions |
| `ControlRecords.RefusalLaw` | engine/crates/layerfs-bridge/src/control_reply.rs:251-302 | refusals read back, and both sides refuse a moved state without its code or the code without it |
| `ControlRecords.ObservationLaw` | engine/crates/layerfs-bridge/src/control_reply.rs:316-335 | exactly one of the engine's row and its refusal is written and read |
| `ControlRecords.StatusLaw` | engine/crates/layerfs-bridge/src/control_reply.rs:303-382 | status bodies read back with published details left out |
| `MergeReport.ClipIsLongest` | engine/crates/layerfs-bridge/src/control_merge.rs:147-153 | a clipped text is the longest well-formed prefix of at most 4096 bytes |
| `MergeReport.LinesAre` | engine/crates/layerfs-bridge/src/control_merge.rs:182-201 | written lines arrive as a prefix, each clipped, of the length the costs allow |
| `MergeReport.LinesKept` | engine/crates/layerfs-bridge/src/control_merge.rs:182-196 | in numbers: the first n lines are kept if and only if their lengths, each at most 4,096, and two bytes each leave 1,024 of the 65,519 bytes |
| `MergeReport.LwwAre` | engine/crates/layerfs-bridge/src/control_merge.rs:107-145 | written decisions arrive as a prefix, each with clipped texts, of the length the costs allow |
| `MergeReport.LwwKept` | engine/crates/layerfs-bridge/src/control_merge.rs:101-124 | the same of decisions: path, rule and five bytes each |
| `MergeReport.HunkItemIs` | engine/crates/layerfs-bridge/src/control_merge.rs:226-230 | a hunk arrives with its line number modulo 2^32 and both sides' lines cut |
| `MergeReport.HunksAre` | engine/crates/layerfs-bridge/src/control_merge.rs:223-230 | the hunks of a conflict arrive all or none, as 64 bytes and the reserve were free |
| `MergeReport.HunksKeptAre` | engine/crates/layerfs-bridge/src/control_merge.rs:223-230 | in numbers: all hunks arrive when 1,088 bytes are free where they start, else none |
| `MergeReport.ConflictsAre` | engine/crates/layerfs-bridge/src/control_merge.rs:208-231 | conflicts arrive as a prefix with clipped paths, of the length the path costs allow |
| `MergeReport.ConflictsKept` | engine/crates/layerfs-bridge/src/control_merge.rs:208-216 | the same of conflicts: the path and eight bytes each, whatever hunks they have |
| `ListCodec.ListedWrites` | engine/crates/layerfs-bridge/src/control_merge.rs:182-201 | whenever a list is written its u16 count is lossless, it reads back, and what arrives is written again to the same bytes |
| `ListCodec.FittingIsLongest` | engine/crates/layerfs-bridge/src/control_merge.rs:103-116 | the running total fits for exactly the prefixes up to the chosen one |
| `MergeReplies.ReportArrives` | engine/crates/layerfs-bridge/src/control_merge.rs:203-289 | whenever a report is written it reads back as prefixes with clipped texts, and `truncated` is set exactly when it was or an entry, hunk or line was dropped |
| `ReportLength.ReportEncodes` | engine/crates/layerfs-bridge/src/control_merge.rs:203-248 | a report is written if and only if the length of its conflicts, computed from texts and counts alone, leaves five bytes |
| `MergeReplies.NoHunksAlwaysEncodes` | engine/crates/layerfs-bridge/src/control_merge.rs:203-248 | without hunks a report is always written |
| `ReportLength.HunkTextCanRefuse` | engine/crates/layerfs-bridge/src/control_merge.rs:217-231 | lines that fill the record up to the reserve and a next path longer than the reserve: the count was chosen to fit, and the report is refused |
| `MergeReplies.UnflaggedCanDiffer` | engine/crates/layerfs-bridge/src/control_merge.rs:147-248 | for every report that is written and arrives unflagged: every entry, hunk and line is there, and it is the report that was sent if and only if no text is longer than 4096 bytes and every hunk's line number is below 2^32 |
| `MergeReplies.LongPathLosesItsEnd` | engine/crates/layerfs-bridge/src/control_merge.rs:147-153 | a path of 4097 bytes is read back one byte short with `truncated` unset |
| `MergeReplies.WideLineArrivesAsZero` | engine/crates/layerfs-bridge/src/control_merge.rs:226-230 | a hunk at line 2^32 is read back at line 0 |
| `MergedLength.MergedArrives` | engine/crates/layerfs-bridge/src/control_merge.rs:107-169 | a merged Commit is read back with the longest prefix of its decisions that fits, decisions are lost if and only if their total cost exceeds the room left at their computed position, and the record is byte for byte that of the shortened Commit |
| `MergedLength.DecisionsAreLost` | engine/crates/layerfs-bridge/src/control_merge.rs:107-169 | a merged Commit of 13,000 decisions of which some do not arrive |
| `MergeReplies.DirtyEncodes` | engine/crates/layerfs-bridge/src/control_unmount.rs:51-58 | with a valid token a Dirty refusal is always written |
| `MergeReplies.DirtyArrives` | engine/crates/layerfs-bridge/src/control_unmount.rs:51-69 | it reads back with the same counts and the longest prefix of the paths that fits, each clipped, and `truncated` exact |
| `MergeWire.ClipText` | engine/crates/layerfs-bridge/src/control_merge.rs:147-153 | the loop computes the clipped text |
| `MergeWire.CountFitting` | engine/crates/layerfs-bridge/src/control_merge.rs:108-116 | the running scan computes the longest fitting prefix |
| `MergeWire.PutLines` | engine/crates/layerfs-bridge/src/control_merge.rs:182-196 | appends exactly what the codec puts, and its answer says exactly whether lines were left out |
| `MergeWire.PutLww` | engine/crates/layerfs-bridge/src/control_merge.rs:107-124 | appends exactly what the codec puts, and its answer says exactly whether decisions were left out |
| `MergeWire.PutConflicts` | engine/crates/layerfs-bridge/src/control_merge.rs:208-231 | appends exactly what the codec puts, and its flag is exact over conflicts, hunks and lines |
| `MergeWire.PutReport` | engine/crates/layerfs-bridge/src/control_merge.rs:203-248 | appends exactly the report's record, or fails exactly when there is none |
| `MergeWire.PutToken` | engine/crates/layerfs-bridge/src/control_history.rs:39-45 | appends exactly what the codec puts, and refuses a namespace that is not positive |
| `MergeWire.PutDirty` | engine/crates/layerfs-bridge/src/control_unmount.rs:51-58 | appends exactly the refusal's record, or fails exactly when there is none |
| `MergeReaders.ReadToken` | engine/crates/layerfs-bridge/src/control_history.rs:46-56 | takes exactly what the codec gets |
| `MergeReaders.ReadDirty` | engine/crates/layerfs-bridge/src/control_unmount.rs:60-69 | takes exactly what the codec gets |
| `MergeReaders.ReadLines` | engine/crates/layerfs-bridge/src/control_merge.rs:198-201 | takes exactly what the codec gets |
| `MergeReaders.ReadLww` | engine/crates/layerfs-bridge/src/control_merge.rs:126-144 | takes exactly what the codec gets |
| `MergeReaders.ReadReport` | engine/crates/layerfs-bridge/src/control_merge.rs:250-289 | takes exactly what the codec gets |
| `Record.NoProperPrefix` | engine/crates/layerfs-bridge/src/wire.rs:31-79 | of any lawful record, no proper prefix is valid |
| `Record.NothingAppended` | engine/crates/layerfs-bridge/src/wire.rs:31-79 | any lawful record with bytes appended is refused |
| `ControlCall.CallReadsBack` | engine/crates/layerfs-bridge/src/control_request.rs:14-208 | a well-formed call that encodes decodes to itself |
| `ControlCall.CallWritesBack` | engine/crates/layerfs-bridge/src/control_request.rs:14-208 | an accepted record is well formed and encodes to the same bytes |
| `ControlCall.BadObservationRefused` | engine/crates/layerfs-bridge/src/control_types.rs:81-100 | the encoder refuses a nested observation, an observed Hello or EndSession and a zero scope |
| `ControlCall.CallRefusalsAgree` | engine/crates/layerfs-bridge/src/control_request.rs:14-216 | of all calls a caller can build, observed to any depth, one is written if and only if some record reads as it, and neither side accepts a nested observation, an observed Hello or EndSession or a zero scope |
| `ControlCall.BadRecordRefused` | engine/crates/layerfs-bridge/src/control_request.rs:113-136 | every record of tag 12 or 21 with a zero scope or an inner tag 7, 8, 12 or 21 is refused, whatever follows |
| `CallFormat.CallIsWritten` | engine/crates/layerfs-bridge/src/control_request.rs:11-106 | every call a caller can build is written if and only if its number is not zero, each token's namespace is positive, cursors are 160 bytes, windows 1 to 32, messages at most 4,096 bytes, SDK names at most 64 and values at most 16 deep, an observation's scope is not zero and wraps an operation that may be observed, and it fits in 65,519 bytes; the record is 76, 70, 83, 67, 1, the number in eight bytes, the literal tag of the operation and its fields in order |
| `CallFormat.CallIsRead` | engine/crates/layerfs-bridge/src/control_request.rs:108-208 | every record reads as a call if and only if it is those bytes of that call, widths, tags of identities, names and texts included |
| `CallFormat.ValueIsPut` | engine/crates/layerfs-bridge/src/control_sdk.rs:114-157 | an SDK value is its kind byte, 0 to 7, then eight bytes for a number, a length or count of four and its content, and names under a length of two; it exists if and only if it is at most 16 deep with names of at most 64 bytes |
| `CallWire.EncodeRecord` | engine/crates/layerfs-bridge/src/control_request.rs:14-106 | the encoder, field by field, gives the specified record of every call a caller can build, or none exactly when there is none; `CallIsWritten` says which bytes that record is |
| `CallWire.PutOperation` | engine/crates/layerfs-bridge/src/control_request.rs:25-104 | tag and body of each operation are appended exactly as its codec puts them, after the window test |
| `CallWire.PutObserved` | engine/crates/layerfs-bridge/src/control_request.rs:21-24 | an observation's tag and scope, then the operation, are appended exactly as the codec puts them |
| `CallReaders.DecodeRecord` | engine/crates/layerfs-bridge/src/control_request.rs:108-208 | the decoder, field by field, gives the specified call, or none exactly when there is none; `CallIsRead` says which records those are |
| `CallReaders.ReadBody` | engine/crates/layerfs-bridge/src/control_request.rs:136-197 | for each tag the decoder takes exactly what the codec of that tag gets |
| `CallReaders.ReadObserved` | engine/crates/layerfs-bridge/src/control_request.rs:118-137 | scope, inner tag and operation are taken exactly as the codec gets them |
| `ControlAnswer.AnswerProjects` | engine/crates/layerfs-bridge/src/control_reply.rs:16-249 | a well-formed answer that encodes decodes, loses nothing but merge details and the tails of over-long texts, and what is decoded encodes to the same bytes |
| `ControlAnswer.AnswerHasNoPrefix` | engine/crates/layerfs-bridge/src/control_reply.rs:72-80 | no proper prefix of a valid answer is valid, so a mount block or forced facts cannot be cut off |
| `ControlAnswer.AnswerTakesNoMore` | engine/crates/layerfs-bridge/src/control_reply.rs:148-249 | a valid answer with bytes appended is refused |
| `AnswerFormat.AnswerIsItsBytes` | engine/crates/layerfs-bridge/src/control_reply.rs:13-146 | whenever an answer is written, the record is 76, 70, 83, 65, 2, the number in eight bytes, the literal tag of the reply and the fields of the answer that arrives, in order |
| `AnswerFormat.AnswerIsWritten` | engine/crates/layerfs-bridge/src/control_reply.rs:16-249 | an answer without a merge report is written if and only if every record in it meets its literal limits and it fits in 65,519 bytes |
| `ControlAnswer.NoHunksAnswerEncodes` | engine/crates/layerfs-bridge/src/control_reply.rs:68-71 | an unobserved conflict answer without hunks always encodes |
| `ControlAnswer.DirtyAnswerEncodes` | engine/crates/layerfs-bridge/src/control_reply.rs:85-88 | an unobserved Dirty answer always encodes |
| `LineDiff.DiffIsSound` | core/crates/layerfs-content/src/compare/text.rs:55-128 | both texts can be read off their difference, whatever their size |
| `LineDiff.DiffIsLongest` | core/crates/layerfs-content/src/compare/text.rs:1-128 | the kept lines are common to both texts, and nothing longer is if and only if a table was walked or the texts' middles share no line |
| `LineDiff.DiffRemovesFirst` | core/crates/layerfs-content/src/compare/text.rs:105-128 | where lines differ, no removed line follows an added one: the left text's come first |
| `LineDiff.LongTextsKeepNothing` | core/crates/layerfs-content/src/compare/text.rs:60-80 | two texts with 1,100 lines in common of which none is kept |
| `LineDiff.MatchingIsSound` | core/crates/layerfs-content/src/compare/text.rs:131-146 | each line has one place, matched lines are equal, and matches never cross |
| `LineDiff.MatchingOfItself` | core/crates/layerfs-content/src/compare/text.rs:131-146 | each line of a text is matched with itself |
| `LineDiff.TableDiff` | core/crates/layerfs-content/src/compare/text.rs:87-128 | the table filled in place and the walk over it give the specified difference |
| `LineDiff.DiffLines` | core/crates/layerfs-content/src/compare/text.rs:55-80 | the three cases by table size give the specified difference |
| `LineDiff.MatchLines` | core/crates/layerfs-content/src/compare/text.rs:131-146 | the loop fills in the specified matching |
| `LineMerge.JoinLines` | core/crates/layerfs-content/src/compare/text.rs:44-47 | a text is its lines joined, and no line holds a newline |
| `LineMerge.Merge3` | core/crates/layerfs-content/src/merge/text.rs:40-86 | the loop gives the specified text and hunks; how each hunk stands in that text is `HunksStand` |
| `LineMerge.ChoosingASide` | core/crates/layerfs-content/src/merge/text.rs:40-86 | choosing the same side in every chunk gives that side's text, and the base the base |
| `LineMerge.EveryKeptLineCuts` | core/crates/layerfs-content/src/merge/text.rs:70-80 | the chunks are cut at every base line matched on both sides: the loop's order test never skips one |
| `LineMerge.OneSidedMerges` | core/crates/layerfs-content/src/merge/text.rs:40-86 | if one side is the base the merge is the other, and if both sides are equal it is they, without a hunk |
| `LineMerge.MergeIsSymmetric` | core/crates/layerfs-content/src/merge/text.rs:40-86 | swapping the sides swaps the sides of each hunk at the same line, and without a hunk leaves the text |
| `LineMerge.HunksAreDisputed` | core/crates/layerfs-content/src/merge/text.rs:53-68 | the hunks are the chunks both sides changed differently: all of them, in order, with both sides' lines |
| `LineMerge.HunksAreInPlace` | core/crates/layerfs-content/src/merge/text.rs:12-21 | each hunk's line is the text's line of its opening marker, with ours' lines under it, the separator, theirs' lines and the closing marker, in order and without overlap: if and only if there is no hunk or no label holds a newline |
| `LineMerge.HunksStand` | core/crates/layerfs-content/src/merge/text.rs:58-68 | for labels of one line each, every hunk stands in the text at its line: the opening marker with ours' label, ours' lines, the separator, theirs' lines, the closing marker with theirs' label, one hunk after the other |
| `LineMerge.HasMarkers` | core/crates/layerfs-content/src/merge/text.rs:107-118 | the scan finds a block if and only if an opening line, a later separator and a later closing line exist |
| `LineMerge.HunksAreFound` | core/crates/layerfs-content/src/merge/text.rs:58-68 | a merge with a hunk leaves a block the scan finds, whatever the labels hold |
| `LineMerge.DeletionIsFound` | core/crates/layerfs-content/src/merge/text.rs:91-103 | so do the markers of a deletion, whatever text and labels hold |
| `LineMerge.DeletionStands` | core/crates/layerfs-content/src/merge/text.rs:91-103 | the lines of a deletion's markers, for each side: the kept text under its own label, the other side empty with its label marked deleted |
| `RustScanner.BlankRust` | tools/production_loc.py:63-106 | the scanner, overwriting in place, computes the specified text |
| `RustScanner.BlankKeepsLines` | tools/production_loc.py:63-106 | length and every newline are kept |
| `RustTokens.TokensAgree` | tools/production_loc.py:63-148 | for every text of Rust tokens the scanner's comments and literals, quote to quote, are Rust's if and only if no token is contested: no raw byte or C string holds a quote or escapes its closing one when read with escapes, and no lifetime or raw identifier `r` stands before a string whose closing quote is another when it is read as raw |
| `RustBlanking.BlanksRustComments` | tools/production_loc.py:63-148 | for every text of Rust tokens exactly Rust's comments become spaces if and only if, followed side by side, neither the scanner nor the tokens come to a comment where the other does not stand |
| `RustBlanking.RecoveredIsInStep` | tools/production_loc.py:63-148 | so it is whenever the scanner, started at the opening quote of each contested raw byte or C string, comes to that string's end without a comment, and no other token is contested |
| `RustBlanking.SettledRecovers` | tools/production_loc.py:63-148 | a text without a contested token meets that condition |
| `RustBlanking.MisreadIsOutOfStep` | tools/production_loc.py:63-148 | the text in which a literal is blanked is out of step |
| `RustBlanking.HeaderIsKept` | tools/production_loc.py:109-130 | a raw byte string with quotes inside that is contested and keeps its text |
| `RustTokens.RawByteStringIsMisread` | tools/production_loc.py:109-130 | a Rust text in which a slash inside a literal is blanked |
| `RustScanner.BlankIsIdempotent` | tools/production_loc.py:63-148 | blanking twice is blanking once, and the literals found are the same |
| `CfgFormula.SplitTopLevel` | tools/production_loc.py:151-165 | the loop computes the specified parts |
| `CfgFormula.SplitsBack` | tools/production_loc.py:151-165 | a printed list of formulas with matched parentheses splits into the pieces of its parts, and a part that is a call is one piece |
| `CfgFormula.CheckerIsSound` | tools/production_loc.py:168-187 | where no comma-separated piece of an option is `test` or a call, the answer is exact for the formula itself, and a true one means every build satisfying it is a test build |
| `CfgFormula.CheckerIsExact` | tools/production_loc.py:168-187 | for every formula whose options have matched parentheses, in any spacing, the answer is true if and only if no other than a test build satisfies it when each `not(..)` and each empty `any()` counts as true and each option is read as its comma-separated pieces |
| `CfgFormula.ReadDecides` | tools/production_loc.py:168-187 | on any text without spaces the checker answers what holds of the formula the text is read as |
| `CfgFormula.PositiveIsWeak` | tools/production_loc.py:168-187 | without negation and empty `any` that reading is the formula itself |
| `CfgFormula.CommaMisleads` | tools/production_loc.py:151-187 | a predicate with a comma inside an option that holds in production and is answered true |
| `CfgFormula.NegationIsNotRead` | tools/production_loc.py:168-187 | a formula that implies a test build and is answered false |
| `TestOnlyFiles.FindTestOnly` | tools/production_loc.py:249-275 | the fixpoint terminates with exactly the listed files at the end of a chain of declarations whose first is test-only |
| `TestOnlyFiles.OrderIsIrrelevant` | tools/production_loc.py:249-275 | the order of the files does not matter |

## Left out

- Sockets, timers' durations, the secret exchange, `ping` and the handling of a destroyed socket: a timer is a step that may happen whenever it is armed, and a connection is already authenticated.
- JSON text: a parameter assumed to read back the plain trees it writes; its grammar is not modelled. A number is the bit pattern of a finite double.
- Packing functions, symbols, sparse arrays and the reordering of integer-like keys: outside the supported values, and an object's fields are a sequence with unique keys.
- `project.init` in a container, path mapping and bundle checks in the worker: I/O around the calls modelled.
- Error texts: every refusal of a codec is one value, since no branch depends on the text.
- Field-by-field writers and readers of the replies in control_history.rs, control_mount.rs, control_forced.rs and control_reply.rs: these records are modelled on values, as codecs over what is written at a length and what is read from the rest; the updates of the buffer in place are proved for the primitives, calls, SDK values, conflict reports and Dirty refusals. What is written before a refusal is not described, because the encoder drops it.
- Identities are byte strings of the right width and tag; how they are derived by hashing is not modelled.
- Error precedence between several faults of one record: the model says that it is refused, not for which.
- `DaemonSetup`, `StoreManifest` and install replies: address and path checks by library parsing, and easy fields.
- `clients.js` of the runtime: a weaker form of the same Store table.
- `blank_inline_tests`, `declared_modules` and the JavaScript and SQL scanners of production_loc.py: regular expressions of the library decide them; the declarations of a file are a parameter of the fixpoint.
- The content, history, storage and daemon algorithms behind the records, other than the line difference and the line merge: not part of this model.
- The table of the line difference is two-dimensional here, and one row after another in one vector in the source; its numbers do not wrap, since the table has at most 2^20 cells.
- `MAXIMUM_TEXT_BYTES`, `as_text` and the choice of files merged by lines: easy tests around the line merge.
- `RustScanner.BlankIsIdempotent`: which characters continue an identifier is a parameter, of which only that a space and a slash do not is used.
- `RustTokens.TokensAgree`: of the identifier characters it is used that `b`, `c` and `r` continue one and that quotes, `#`, slashes, backslash, newline and space do not; numbers are words and punctuation, and literals carry no suffix.
- `SdkWindows.ConflictsFit`: the saturating additions of the costs are plain additions, since a window of 16,384 bytes refuses any cost that could saturate.
