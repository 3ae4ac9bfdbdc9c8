# ITB stress harness: a verified model

The repository is a Python binding to a foreign cipher library and a concurrent stress
harness that drives it. This project models the harness's run protocol and the self-contained
algorithms around it in Dafny and proves what they are for.

- **The run protocol** (`RwLock`, `Pipelines`, `Protocol`, `Sums`, `LockSafety`, `PipeSafety`,
  `RoundTrip`, `Phases`, `Accounts`, `Buffers`, `Invariant`, `Histories`, `Progress`,
  `Termination`, `Theorems`, `Sections`, `Stopping`, `Failures`, `Completion`, `Ops`, and `Octets` and
  `Wrappers` for types shared by all). N worker threads and the launcher are a transition system:
  one program counter per thread, and one step per critical section, foreign call or assignment
  to shared state. Any foreign call may return an error or raise, the clock and signals are
  arbitrary, and every interleaving is a run. The statements hold in every reachable state, for
  every number of workers, every configuration the flags let through and every pattern of
  failures. `RwLock` and `Ops` also give the lock and the handle-replacing operations in the
  imperative form of the source, against the functions the transition system is made of.
- **The seeded generator** (`SplitMix`, `Payload`): splitmix64 on 64-bit registers, its
  inverse, the block fill against a closed form, and which buffers are distinct.
- **The stream pumps** (`Pump`): the session as an object that releases its output at any rate
  it likes, and the three loops that drive it.
- **Printers and parsers** (`Decimals`, `Durations`, `Opts`, `Flags`): Go-style durations, the
  percent-encoded option string, the four-spelling flag parser, each with the statement that
  reading undoes writing.
- **Buffers of the binding** (`Keys`): flattened master keys, the retry with zeroed staging
  buffers, handles freed once.

## Assumptions about the foreign library

- Under one keying, decrypting undoes encrypting (`Protocol.Correct`, `Pump.Inverse`).
- A blob is an exact record of a keying; Load opens a fresh handle with the keying of its blob;
  Rekey replaces the masters of the enabled layers only; a Rekey or Load that fails changes
  nothing.
- A session's complete output is a function of its complete input; before the end of input it
  has produced some prefix of what the input so far determines; reads hand the output out in
  order (`Pump.Causal`).
- Cipher calls return. Condition variables wake only on notify, barriers do not break, and
  threads can be started.

## Where the code and its documentation part

- `seed_worker` promises that seeded workers hold pairwise-distinct buffers under the fixed and
  rotating modes, that is, at the same time. Two conditions bound that promise.
  - The payload: at equal fills, hence in fixed mode, it holds for every seed exactly from
    eight bytes on (`Payload.DistinctExactlyFromOneWord`). One seed gives workers 0 and 2 the
    same buffer for every payload of up to seven bytes (`Payload.TwoWorkersShareSevenBytes`).
  - The distance: rotating workers do not keep in step, and from eight bytes on two buffers of
    any two workers at any two fills are equal exactly when their ids and fills lead to the
    same place of the generator (`Payload.BuffersEqualExactly`). For the ten workers of a run
    that cannot happen while two of them are fewer than `Payload.APART` draws (about 10^18)
    from each other, and for one-word buffers it does happen at that distance
    (`Payload.ReachIsExact`, `Payload.MeetAtTheBound`). An iteration budget of fewer draws than
    that rules it out for the whole run (`Theorems.BudgetKeepsPlaintextsDistinct`).
- `init_keys` zeroes its flat key buffer on every way out of its guarded block, but an allocation
  that fails between the copying of the keys and that block leaves them in memory.
  `Keys.InitKeys` says exactly when, and that the buffer left holds the keys;
  `Keys.ResidueExists` names an instance.
- `pump` ignores the count that a file object's `write` returns, so a raw file that takes less
  than it is handed loses output. It hands over chunks of at most a slice (1 MiB), and a file
  whose writes take up to `most` bytes of a chunk ends up with the complete transform, for every
  codec, input and cutting of the output, exactly when `most` is at least a slice
  (`Pump.LosslessExactly`). One chunk of a full slice exhibits the loss
  (`Pump.OneSliceIsCutOff`), and every cutting is one that some session produces
  (`Pump.EveryCutIsASchedule`).
- The look-ahead for a letter in `parse_duration` never changes a result
  (`Durations.LookaheadIsRedundant`).

## Model

| member | source | states |
|---|---|---|
| Theorems.LockIsSafe | loop/state.py:86-112 | in every reachable state the reader count equals the threads in read sections, the writer flag is set exactly when some thread is in a write section, a writer excludes every other section, and every parked thread has a blocking condition that is true, so no wake-up is lost |
| RwLock.RWLock.constructor | loop/state.py:86-89 | a new lock is free and nobody is parked |
| RwLock.RWLock.AcquireRead | loop/state.py:91-95 | one pass: enters exactly when no writer holds the lock, parks otherwise; parked threads keep a reason |
| RwLock.RWLock.AcquireWrite | loop/state.py:103-107 | one pass: enters exactly when there is neither writer nor reader, parks otherwise |
| RwLock.RWLock.ReleaseRead | loop/state.py:97-101 | the last reader wakes everybody, any other nobody, and no thread is left parked without a reason |
| RwLock.RWLock.ReleaseWrite | loop/state.py:109-112 | the leaving writer wakes everybody |
| LockSafety.LockStep | loop/state.py:91-112 | every step of any thread moves the lock fields with its own section and notifies whenever it unblocks someone |
| RoundTrip.NoMutationDuringRead | loop/state.py:156-161 | no step of anybody changes a handle, keying or blob while some worker is in a read section |
| Theorems.NothingChangesUnderARoundTrip | loop/worker.py:118-201 | over any stretch of a run during which a worker stays in its read section, all handles, keyings and blobs stay the same |
| Theorems.ComparesTheRoundTrip | loop/worker.py:134-180 | with any cipher: the bytes a worker compares with its plaintext are that plaintext encrypted and decrypted on the surface of its iteration, under the keying the live handle has then |
| Theorems.MismatchIsTheEnd | loop/worker.py:172-194 | the step that finds other bytes is the last of its run, and leaves everything as it is: no lock released, no error recorded, no handle freed, no verdict, no other thread moved |
| Theorems.CrashedExactly | loop/worker.py:180-194 | a run has exited so if and only if its last step was that of a worker whose bytes differ |
| Theorems.NoDataMismatch | loop/worker.py:172-194 | with a correct cipher the mismatch exit is unreachable and the decrypted bytes equal the plaintext at every comparison, across rekeys and reopens |
| RoundTrip.TripsOkWork | loop/worker.py:134-180 | every worker step keeps: the handle in hand is the live one of its surface, the wire in hand is the plaintext encrypted under that keying, and the bytes to be compared are that wire decrypted |
| Theorems.BlobLoadsToLiveKeying | loop/ops.py:33-56 | wherever a run comes to outside a write section, every needed pipeline's handle is open, its retained blob loads to exactly its keying, and that keying has the inner seeds of the handle the run began with, also after a rekey that succeeded on one pipeline and failed on the other |
| Theorems.SlotsStay | loop/ops.py:33-102 | no run, whatever fails in it, builds or drops a pipeline or replaces its inner seeds |
| Theorems.OpenHandlesAreTheActiveOnes | loop/ops.py:75-102 | outside a write section the open handles are exactly those of the active pipelines and every other one was freed exactly once |
| Theorems.EveryHandleFreedOnce | loop/main.py:770-776 | a finished run has freed every handle it opened, each exactly once |
| PipeSafety.WriterStep | loop/ops.py:33-56 | every step inside a write section keeps handles, slots and blobs consistent with the writer's progress |
| Pipelines.RekeyCallKeeps | loop/ops.py:35-53 | a rekey of a live handle keeps the other pipeline, the inner seeds and the handle table consistent |
| Pipelines.KeepBlobKeeps | loop/ops.py:35-37 | retaining the new blob restores blob and keying to agreement |
| Pipelines.LoadCallKeeps | loop/ops.py:77-79 | a load opens one spare handle whose keying is the retained blob's |
| Pipelines.FreeOldKeeps | loop/ops.py:86-87 | freeing the running handle leaves exactly the spare open for that pipeline |
| Pipelines.SwapKeeps | loop/ops.py:86-87 | swapping the spare in restores one live handle per pipeline |
| Pipelines.ReleaseKeeps | loop/main.py:772-775 | the final release closes the stream handle, then the message handle, each once |
| Ops.RunState.RekeyPipes | loop/ops.py:33-56 | when it ends well every Pipeline has, in the layers that are on, the masters given, otherwise those it had, and its blob records them; when the message Pipeline's call fails the stream Pipeline has them and the message Pipeline is untouched; when the stream's fails nothing changed; it counts only success |
| Ops.RunState.BlobCyclePipes | loop/ops.py:75-102 | when it ends well every Pipeline has a handle opened since, of the keying it had, and the old one is freed once; on a failed load that Pipeline is untouched and its running handle stays |
| Ops.RekeyStepsAreRekeyOne | loop/ops.py:33-56 | the transition system's steps of one pipeline's rekey make up the imperative operation, in success and failure |
| Ops.ReopenStepsAreReopenOne | loop/ops.py:75-102 | the transition system's steps of one pipeline's reopen make up the imperative operation, in success and failure |
| Ops.RekeyBothFields | loop/ops.py:33-52 | a rekey of both Pipelines leaves each with the new masters of the layers that are on, its own inner seeds and handle, and a blob of the new keying |
| Ops.ReopenBothFields | loop/ops.py:75-98 | a reopen of both leaves each with a fresh handle of its own keying and the old handle freed once |
| Sections.RekeyIsAtomic | loop/ops.py:33-56 | in any run, whatever other threads do between its steps, a write section entered to rekey ends with that effect as a whole, or with that of the Pipelines before the failing call |
| Sections.ReopenIsAtomic | loop/ops.py:75-102 | the same of a write section entered to reopen |
| Sections.RekeyCarriesTheDrawnMasters | loop/ops.py:29-56 | from the draw of the masters on: once the worker has rekeyed, and until somebody writes again, every Pipeline carries exactly the masters that worker drew, in the layers that are on, and otherwise those it had |
| Theorems.NoDeadlock | loop/worker.py:200-227 | whatever has failed, until the launcher is finished some step other than its polling is enabled |
| Progress.SomebodyCanMove | loop/main.py:714-756 | the step that is enabled is found: the launcher's own, a lock holder's, or that of the worker a barrier or a join waits for |
| Theorems.BudgetedRunsEnd | loop/worker.py:228-242 | with an iteration budget the steps of any run, polling aside, are bounded in advance by a function of workers and budget, under any scheduler |
| Theorems.MeasureBoundsRun | loop/worker.py:228-242 | along any run the lexicographic measure plus the effective steps taken never exceeds the measure at its start |
| Termination.MeasureStep | loop/state.py:91-107 | every step but polling lowers the measure (remaining program work, then threads awake in a re-check loop), and polling does not raise it |
| Theorems.StoppedRunsEnd | loop/main.py:748-756 | once a stop is requested, in whatever state, no more effective steps are left than a run of one iteration per worker takes: a bound by the number of workers alone |
| Stopping.StopsExactly | loop/main.py:748-753 | a run has been asked to stop if and only if a worker has failed, a poll saw a signal, or, without an iteration budget only, a poll read the clock at or past the deadline |
| Stopping.DeadlineEndsTheRun | loop/main.py:742-753 | without a budget, once a poll reads the clock the whole duration after the gate was opened, the stop request stands for good and only the steps of one iteration per worker are left |
| Stopping.StartsAtTheGate | loop/main.py:740-744 | the clock of the run starts with the reading made when the gate is opened and is not set again |
| Stopping.FinishesWithTheLast | loop/worker.py:247-254 | the finish is the reading made when the last worker returns and is not set again |
| Stopping.UndisturbedRunsAreFull | loop/main.py:748-756 | a finished run with a budget that saw no signal and no failure did the whole budget, whatever its duration, and passes |
| Completion.StuckMeansFinished | loop/main.py:744-776 | a reachable state in which nothing but polling is enabled is the end: all workers returned, verdict given, launcher finished |
| Completion.BudgetedRunsCanFinish | loop/worker.py:204-244 | from every reachable state of a budgeted or stopped run there is a continuation to the end |
| Completion.EveryConfigStarts | loop/main.py:671-718 | every accepted configuration has an initial state, so the statements about runs are about something |
| Theorems.StopStays | loop/state.py:240-246 | no step withdraws a stop request |
| Theorems.StartsAfterStop | loop/worker.py:228-242 | after a stop request a worker can start only the iteration it already stands before |
| Theorems.AtMostOneMoreIteration | loop/worker.py:228-242 | after a stop request each worker starts at most one further iteration |
| Theorems.BarriersAreFull | loop/worker.py:218-226 | every worker reaches both barriers, one that fails its warmup too: whoever is past the release, and a finished run, has seen all workers and the launcher arrive at each, and nobody arrives twice |
| Theorems.BaselinesSeeWarmWorkers | loop/main.py:726-744 | while the launcher takes its baselines every worker has ended iteration 0 and none has begun iteration 1 |
| Theorems.LauncherLeavesLast | loop/worker.py:247-254 | active equals the number of workers not returned; the launcher leaves its wait only when all have, and the finish was stamped exactly once, not before the start |
| Theorems.CountersAreExact | loop/worker.py:196-198 | outside the counter update bytes encrypted and decrypted equal iterations times payload per worker; the shared counters of rekeys and blob cycles, loaded and stored in separate steps, are the totals of the operations the workers completed, so no update is lost |
| Invariant.LoadsMove | loop/ops.py:53-56 | between the load and the store of a shared counter the write lock keeps every other thread from storing |
| Accounts.CountsStep | loop/ops.py:53-56 | the shared counters move inside write sections only, and by one where the load is still good |
| Theorems.FullRunAccounts | loop/ops.py:118-125 | a run that ends unstopped did the whole budget in every worker, N * ((K-1) / interval) rekeys and blob cycles, and passes |
| Accounts.MaintenanceStep | loop/ops.py:107-125 | every step keeps a worker's maintenance counts at what its interval and iteration number say |
| Theorems.VerdictIsExact | loop/summary.py:139-156 | the verdict is FAIL exactly when some worker recorded an error, and a worker records exactly one error exactly when a call of its own failed |
| Failures.FailsExactly | loop/worker.py:204-244 | a worker is failing or has failed if and only if something went wrong in a step of its own: a fill, a cipher call, a draw of masters, a rekey, a load or a log line |
| Failures.PassesExactly | loop/summary.py:139-156 | a finished run passes if and only if nothing went wrong in any step of it |
| Theorems.PlaintextsEqualExactly | loop/worker.py:115-116 | in every reachable state of a seeded run with payloads of eight bytes or more, however far the workers have run apart, two of them hold the same plaintext exactly when ids and fills lead to the same place of the generator |
| Theorems.WorkersHoldDistinctPlaintexts | loop/payload.py:47-56 | plaintexts are pairwise distinct in every reachable state of such a run: in fixed mode and at equal fills always, in rotating mode for the ten workers of a run at any fills fewer than APART draws from each other |
| Theorems.BudgetKeepsPlaintextsDistinct | loop/payload.py:47-56 | for up to ten workers with a budget whose draws number fewer than APART, plaintexts are pairwise distinct in every reachable state, in either mode and however the workers are scheduled |
| Accounts.FillsStep | loop/worker.py:228-242 | every step keeps: a worker that has not failed has started exactly the iterations its number says, none beyond the budget, and under the rotating mode has filled its plaintext once for each |
| Theorems.SeededIterationsAreReplayable | loop/payload.py:47-56 | while iteration `it` of worker i is under way its plaintext is a function of seed, i, size, mode and `it` alone: buffer `it + 1` of the worker's stream in rotating mode, the first in fixed mode |
| Buffers.UnseededRefill | loop/worker.py:115-116 | without a seed a rotating refill makes the operating system's bytes the plaintext |
| Theorems.SurfacesInTurn | loop/worker.py:117-132 | in n iterations a worker exercises the surface its shape names n times, and under the mixed shape session, message call and whole-buffer call (n+2)/3, (n+1)/3 and n/3 times |
| Theorems.PipelinesUsedExactly | loop/main.py:675-684 | a run builds a Pipeline if and only if some iteration uses it |
| Invariant.InvStep | loop/worker.py:204-254 | the invariant of locks, handles, phases, books and buffers is kept by every step of every thread, whatever fails |
| Invariant.SafeStep | loop/worker.py:118-201 | with a correct cipher every step also keeps the round trips and the books on failures |
| SplitMix.MixBijective | loop/payload.py:66-70 | the output function of the generator and its inverse undo each other on every 64-bit word |
| Payload.DrawsDistinct | loop/payload.py:59-70 | draws of one stream fewer than 2^64 apart differ |
| Payload.WorkerStatesDiffer | loop/payload.py:47-56 | generator states of two workers never coincide at equal draws |
| Payload.FillSeeded | loop/payload.py:89-97 | the block loop yields, at byte i, byte i mod 8 of the draw i/8+1, and advances the state by one gamma per started word |
| Payload.FillPayload | loop/payload.py:78-103 | every mode yields n bytes of its closed form and the advanced state |
| Payload.ModesByByte | loop/payload.py:78-103 | the pattern modes byte by byte: zeros, 255, the capital letters in turn, whatever the seed; unseeded, the operating system's bytes; the generator state kept |
| Payload.FillPrefix | loop/payload.py:93-96 | a shorter fill is a prefix of a longer one |
| Payload.NextFill | loop/payload.py:89-97 | successive fills of a worker are its numbered buffers |
| Payload.BuffersEqualExactly | loop/payload.py:47-56 | from eight bytes on, the buffers of any two workers at any two fills are equal if and only if their ids and fills lead to the same place of the generator |
| Payload.WorkersHoldDistinctBuffers | loop/payload.py:47-56 | from eight bytes on, equal buffers are the same worker at the same fill: at equal fills for all ids, and at any fills fewer than APART draws from each other for ten ids |
| Payload.ReachIsExact | loop/payload.py:47-56 | for one-word buffers ten workers within a span of draws hold pairwise-distinct buffers if and only if the span is at most APART |
| Payload.MeetAtTheBound | loop/payload.py:47-56 | the collision at that distance: worker 1 comes to worker 0's buffer |
| Payload.SeededBufferNamesWorker | loop/payload.py:59-70 | the same of the generator in use |
| Payload.RotatingBuffersNeverRepeat | loop/payload.py:89-97 | one worker's rotating buffers do not repeat within 2^64 draws |
| Payload.DistinctExactlyFromOneWord | loop/payload.py:52-54 | at equal fills the documented distinctness holds for every seed, for any number of workers from three to 2^64, if and only if the payload has at least eight bytes |
| Payload.TwoWorkersShareSevenBytes | loop/payload.py:52-54 | a seed whose workers 0 and 2 hold the same buffer for every payload of up to seven bytes |
| Pump.Session.Write | itb3/stream.py:48-53 | feeds the bytes or fails; a write after end fails |
| Pump.Session.End | itb3/stream.py:55-59 | ends the input, idempotently, or fails |
| Pump.Session.Read | itb3/stream.py:61-77 | hands out the next output bytes, as many as it likes up to the maximum; finished means everything was handed out, and after the end an empty read means finished |
| Pump.Session.Free | itb3/stream.py:116-126 | releases the session once however often it is called |
| Pump.Session.DrainAll | itb3/stream.py:79-89 | what was delivered before plus what it returns is the complete output; it fails only when a call fails; it terminates |
| Pump.Session.PumpTo | itb3/stream.py:91-114 | from any state of the session and with file objects that may raise or take less than they are handed: on every way out the sink was handed exactly what the session delivered meanwhile, in nonempty chunks of at most a slice; on success that completes the transform of all the input, the sink holds its share of every chunk and was flushed last; no write is made before the output of the one before was drained until a read came back empty; it fails only when a call or a file object does |
| Pump.Session.Feed | itb3/stream.py:95-106 | the feeding loop hands every read piece to the session and every byte produced meanwhile to the sink, in chunks of at most a slice |
| Pump.StreamPump | itb3/pipeline.py:337-352 | source to sink through one session, which is released on every path, also when a file object raises; on success the chunks handed over are a cutting of the complete transform and the sink gained its share of each, which is the complete transform when its writes take a full slice |
| Pump.LosslessExactly | itb3/stream.py:106-111 | a file whose writes take up to `most` bytes keeps the complete output of every codec and input, however it is cut, if and only if `most` is at least 1 MiB |
| Pump.OneSliceIsCutOff | itb3/stream.py:106-111 | the loss exhibited: of one chunk of a full slice a file with smaller writes keeps a proper beginning |
| Pump.EveryCutIsASchedule | itb3/stream.py:102-111 | every cutting of an output into nonempty chunks of at most a slice is what the drains see of some session |
| Pump.FeedAndDrain | loop/worker.py:53-73 | the feed and drain loops return exactly the one-shot transform, for every length and production schedule, and drain after each write until a read comes back empty |
| Pump.PumpAll | loop/worker.py:42-75 | the same, and every session begun is released on every path |
| Pump.StreamRoundTrip | loop/worker.py:135-149 | encrypting and decrypting through the pumps is the identity under an inverse pair of codecs |
| Pump.FirstDifference | loop/worker.py:78-85 | the common prefix has exactly the returned length |
| Opts.Opts.WithRaw | itb3/opts.py:96-100 | appends one pair and returns the same object |
| Opts.Opts.Build | itb3/opts.py:102-108 | the rendered string reads back to exactly the pairs added |
| Opts.ReadUndoesJoin | itb3/opts.py:102-115 | splitting on ampersand, then on the first equals sign, then percent-decoding undoes rendering for every list of pairs |
| Opts.JoinIsInjective | itb3/opts.py:102-108 | two lists of pairs render alike exactly when they are equal |
| Opts.UnquoteUndoesQuote | itb3/opts.py:114-115 | percent-decoding undoes percent-encoding of every byte string |
| Opts.QuoteHidesDelimiters | itb3/opts.py:103-108 | an encoded key or value holds no ampersand and no equals sign |
| Opts.QuoteIsPrintable | itb3/opts.py:103-108 | what is rendered consists of URL-safe characters, commas and escapes |
| Opts.QuoteEscapesExactly | itb3/opts.py:102-115 | exactly the bytes that are neither unreserved nor a comma are escaped, each growing to three; a text renders as itself if and only if it holds none |
| Opts.EscapeOf | itb3/opts.py:114-115 | an escape is a percent sign and the two capital hexadecimal digits of the byte |
| Durations.ParseDuration | loop/size.py:69-100 | the parsing loop computes the exact-decimal specification, which Durations.ParsesExactly states without it |
| Durations.ParsesExactly | loop/size.py:69-100 | a text parses to `n` nanoseconds if and only if it is a sequence of numbers, with a point or without, each followed by one of ns, us, ms, s, m, h, whose sum is at most 9.2e18 and is `n` with the part below a nanosecond cut off |
| Durations.WholeUnits | loop/size.py:29-38 | every whole number of each unit, up to the limit: 1, 10^3, 10^6, 10^9, 60 and 3600 times 10^9 nanoseconds |
| Durations.SumTerms | loop/size.py:76-97 | the accumulating loop computes the sum over the terms, or rejects |
| Durations.FindUnit | loop/size.py:90-94 | the probing loop finds the first matching unit |
| Durations.ParseUndoesHuman | loop/size.py:149-169 | parsing a printed duration gives it back, exactly up to the parser's limit |
| Durations.TotalOfHuman | loop/size.py:149-169 | the terms of the printed form add up to exactly the duration |
| Durations.HumanIsClock | loop/size.py:157-169 | from one second on a duration prints as its hours when there are any, its minutes when there are hours or any, and its seconds with their fraction |
| Durations.HumanIsMillis | loop/size.py:149-156 | below one second it prints as milliseconds with their fraction |
| Durations.HumanOfNothing | loop/size.py:156-158 | no duration prints as 0s |
| Durations.FractionForm | loop/size.py:141-146 | a fraction ends in its last digit that is not zero, and stands for its billionths |
| Durations.HumanIsInjective | loop/size.py:149-169 | two durations print alike exactly when they differ at most in sign |
| Durations.PiecesAreExact | loop/size.py:157-169 | hours, minutes, seconds and fraction make up the whole duration |
| Durations.ProbeFinds | loop/size.py:29-38 | each unit is found where it stands although some begin others |
| Durations.LookaheadIsRedundant | loop/size.py:90-94 | the not-alphabetic look-ahead never changes a result |
| Durations.DocumentedForms | loop/size.py:149-155 | the documented forms "900ms", "5s", "1m0s" and "1h0m0s" |
| Decimals.StripKeepsValue | loop/size.py:141-146 | stripping trailing zeros of a fraction loses nothing |
| Decimals.ValOfDecimal | loop/size.py:162-169 | a printed number means that number |
| Flags.NumeralsMeanTheirNumbers | loop/main.py:193-208 | every signed or unsigned numeral is accepted exactly within the bounds of its kind and means its number |
| Flags.ParseArgv | loop/main.py:218-260 | the index loop computes the specification of the parser and terminates |
| Flags.ReadFlag | loop/main.py:227-259 | one pass of the loop: the flag, its value and the arguments it takes, or why the line is refused |
| Flags.AssignsExactly | loop/main.py:193-215 | a text is accepted for a flag if and only if it writes a value the flag can hold, and assigns that value: a text itself, a number its digits behind an optional sign, a switch its word |
| Flags.PrintedWrites | loop/main.py:193-215 | every value a flag can hold can be written: numbers as their decimals with a minus, a plus or no sign |
| Flags.ParseGivesValues | loop/main.py:218-260 | a line of assignments of values, in any mix of the spellings, parses to the defaults with exactly those values, a bare boolean meaning true |
| Flags.ParsesExactly | loop/main.py:218-260 | a line parses to certain values if and only if it spells out assignments that make the defaults into them |
| Flags.HelpExactly | loop/main.py:233-235 | help is given if and only if a help word stands behind nothing but valid assignments |
| Flags.RefusalsNameTheFirstFault | loop/main.py:227-257 | a refused line is valid assignments up to a first fault, and the refusal names that fault for what it is |
| Flags.ParseUndoesRender | loop/main.py:218-223 | any mix of the four spellings and bare booleans parses to the defaults overridden in order, for values that contain an equals sign or begin with a dash too |
| Flags.AcceptedLinesAreRenderings | loop/main.py:218-260 | a line is accepted exactly when it is a rendering of valid assignments |
| Flags.LastWins | loop/main.py:258-259 | the last assignment to a flag wins and an unassigned flag keeps its default |
| Flags.CommandLineRoundTrip | loop/main.py:109-165 | the same over the harness's own flag table |
| Flags.TableEntries | loop/main.py:109-165 | every entry of the table is found under its name with its own kind and default |
| Flags.DefaultsAreHeld | loop/main.py:109-165 | every default is a value its flag can hold |
| Flags.BareWorkers | loop/main.py:126-133 | without arguments three workers run and there is no iteration budget |
| Flags.BareRun | loop/main.py:120-162 | without arguments the stream shape runs for five minutes |
| Flags.BareMaintenance | loop/main.py:112-160 | without arguments the run is unseeded and without rekeys and reopens |
| Flags.BarePayload | loop/main.py:149-152 | without arguments payloads are fixed and of 16MB |
| Flags.BareLayers | loop/main.py:147-164 | without arguments both layers are on |
| Flags.NarrowedRunsStayOnTheSurface | loop/main.py:300-307 | under a single profile the run needs exactly the pipeline the profile can carry and every iteration dispatches to it |
| Flags.NarrowsExactly | loop/main.py:300-307 | the requested shape is kept if and only if the profile carries everything it exercises |
| Keys.InitKeys | itb3/pipeline.py:140-193 | at most two calls, both with the flattened masters and their lengths and with buffers allocated here; built exactly when the last answer was OK, with the handle that answer gave; everything allocated here is zero on every way out, except exactly when an allocation fails in the unguarded stretch and a key byte is not zero, and then the one buffer there is still holds the keys |
| Keys.RetryOnceSecret | itb3/pipeline.py:54-75 | one retry exactly on a larger reported need, with the same inputs and the reported capacity; every buffer allocated here, among them all the library was given to write into, is zero on every way out |
| Keys.CallGuarded | itb3/pipeline.py:173-192 | the flat buffer and everything allocated in the guarded block is zero on every way out |
| Keys.Flatten | itb3/pipeline.py:160-166 | the copying loop lays the keys end to end, zero behind them |
| Keys.Lengths | itb3/pipeline.py:167-171 | the length array holds the lengths in order, none for no keys |
| Keys.CutUndoesFlat | itb3/pipeline.py:157-171 | flat bytes and lengths decode to exactly the masters, empty ones included |
| Keys.CallsCarryTheMasters | itb3/pipeline.py:174-190 | every call of an attempt carries exactly the caller's masters |
| Keys.ResidueExists | itb3/pipeline.py:160-173 | a concrete allocation failure that leaves a key in memory |
| Keys.Pipeline.Free | itb3/pipeline.py:363-373 | releases its own handle, once however often it is called |

## Left out

- The cipher, MAC, rekey and blob internals: libitb3 is not part of this model; the laws above stand for it.
- Library lookup, prototypes, status and error enumerations, runtime tuning calls: foreign-call plumbing.
- Logging text, summary rendering, JSON, RSS and pool snapshots: presentation; a log line appears in the protocol only as a call that may raise.
- The early return of `run` when the second pipeline cannot be built, and the failing of the first fills: a run of the model begins with its pipelines built; the first handle is then reclaimed by the interpreter, which the model does not describe.
- Signals beyond "a stop may be requested at any poll", and clocks beyond monotonicity.
- Timing counters (`nanos_enc`, `nanos_dec`): they depend on the clock alone.
- Spurious condition-variable wake-ups, broken barriers, failing thread starts, scheduler fairness.
- Writer progress in duration mode: the lock prefers readers and nothing of the kind is claimed.
- worker_main and iterate are steps of a transition system and not methods of a class, because their interleaving is the subject; Ops and RwLock give the mutating operations in imperative form.
- Protocol.IterateStep: takes a whole session pump as one cipher call; Pump covers what happens inside one.
- Durations.ParseDuration: does not model binary floating-point rounding; the accumulator is an exact decimal. Python's isalpha is a parameter of which only three facts are used.
- Durations.SumTerms: likewise of an exact accumulator.
- Durations.ParsesExactly: likewise; the sum it speaks of is exact.
- Durations.ParseUndoesHuman: holds of exact decimals; the source makes no such promise, and its doubles can round a fraction such as that of "1.001ms" down, where truncation then drops a nanosecond.
- Opts.Opts.Build: takes keys and values as their UTF-8 bytes; the encoding of text is not modelled.
- Flags.ParseArgv: does not print; an error is returned as a value. Python's limit on the length of integer numerals is not modelled.
- Payload.DistinctExactlyFromOneWord: does not cover runs of exactly two workers below eight bytes; from eight bytes on they are covered like any other.
- Keys.InitKeys: the immutable copies made of keys that are not already bytes are not zeroed by the source and not followed here.
- `parse_size`, `human_bytes`, the validation chain of `parse_flags`, `_out_cap`, `_retry_once` without secrets: one-branch facts or the simpler twin of what is here.
