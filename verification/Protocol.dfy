/** The concurrent run (loop/worker.py, loop/ops.py, `run` in loop/main.py) as a
    transition system.  Every worker and the launcher has a program counter; a step is
    one critical section, one foreign call, or one assignment to shared state.  The
    choice attached to a step resolves what the program does not determine: whether a
    call fails, nonces, random bytes, the clock, a signal. */
module Protocol {
  import opened Octets
  import opened Wrappers
  import opened RwLock
  import opened Pipelines
  import Payload
  import SplitMix

  // ------------------------------------------------------------ configuration

  datatype Shape = StreamShape | MessageShape | OneShotShape | BothShapes

  /** What one iteration exercises: the session pump, a Single Message call, or the
      whole-buffer stream call. */
  datatype Surface = Session | SingleMessage | WholeStream

  datatype Config = Config(
    workers: nat, iterations: nat, duration: nat, shape: Shape, payload: nat,
    mode: Payload.Mode, seed: nat, rekeyEvery: nat, cycleEvery: nat, layers: Layers)

  /** What parse_flags lets through. */
  predicate ValidConfig(cfg: Config) {
    cfg.workers >= 1 && cfg.payload >= 1
  }

  /** The foreign cipher, per surface. */
  datatype Cipher = Cipher(
    enc: (Surface, Keying, nat, Bytes) -> Bytes,
    dec: (Surface, Keying, Bytes) -> Bytes)

  /** Under one keying, decrypting undoes encrypting. */
  ghost predicate Correct(ci: Cipher) {
    forall s: Surface, k: Keying, n: nat, p: Bytes :: ci.dec(s, k, ci.enc(s, k, n, p)) == p
  }

  function SurfaceOf(cfg: Config, it: nat): Surface {
    match cfg.shape
    case StreamShape => Session
    case MessageShape => SingleMessage
    case OneShotShape => WholeStream
    case BothShapes => if it % 3 == 0 then Session else if it % 3 == 1 then SingleMessage else WholeStream
  }

  function PipeFor(s: Surface): Which {
    if s == SingleMessage then Message else Stream
  }

  predicate Needs(cfg: Config, w: Which) {
    cfg.shape.BothShapes? || (cfg.shape.MessageShape? <==> w == Message)
  }

  // -------------------------------------------------------------------- state

  datatype Wait = Trying | Parked | Woken

  datatype Op = Rekey | Cycle

  datatype Pc =
    | NotStarted
    // one iteration
    | Refill | ReadLock(wait: Wait) | Dispatch | Encrypt | Redispatch | Decrypt | Compare
    | CountIter | CountEnc | CountDec | ReportRead | ReleaseRead | Escape
    // warmup barriers and the loop
    | ArriveWarm | InWarm | ArriveRelease | InRelease | Gate | Head | StopCheck
    // maintenance
    | RekeyCheck | CycleCheck | WriteLock(op: Op, wait: Wait)
    | CallRekey(which: Which) | RetainBlob(which: Which)
    | CallLoad(which: Which) | CallFree(which: Which) | SwapIn(which: Which)
    | CountOp(op: Op) | StoreCount(op: Op) | ReportWrite(op: Op) | ReleaseWrite(op: Op) | Log(op: Op)
    | Advance | Exit | Done

  /** How the current iteration or operation ended. */
  datatype Ended = Fine | Reported | Escaped

  /** What an iteration or a maintenance operation works on; `count` is the shared counter
      as the thread last loaded it, and (history) `nonce` what the cipher drew for the wire. */
  datatype Job = Job(
    plaintext: Bytes, rng: SplitMix.Word, handle: nat, wire: Bytes, nonce: nat, got: Bytes,
    perm: nat, wrap: nat, count: nat)

  /** The counters the summary reads. */
  datatype Tally = Tally(iters: nat, bytesEnc: nat, bytesDec: nat)

  /** History, for the statements about runs: fills made, iterations started, operations
      counted, calls of worker_fail, and failures injected. */
  datatype Past = Past(fills: nat, started: nat, rekeyed: nat, cycled: nat, reports: nat, faults: nat)

  datatype Worker = Worker(pc: Pc, it: nat, ended: Ended, failed: bool, job: Job, tally: Tally, past: Past)

  datatype LauncherPc =
    | Launch(next: nat) | AtWarm | WaitWarm | Baselines | OpenGate | AtRelease | WaitRelease
    | Waiting | Joining | Summary | FreePipe(which: Which) | Finished

  datatype Operations = Operations(rekeys: nat, cycles: nat)

  /** Arrivals at the two barriers. */
  datatype Barriers = Barriers(warm: nat, release: nat)

  /** The instants the run stamps, the latest reading of the clock, and (history) how often
      the finish was stamped. */
  datatype Instants = Instants(start: nat, finish: nat, clock: nat, stamps: nat)

  datatype Shared = Shared(
    lock: Lock, pipes: Pipes, stop: bool, active: nat, main: LauncherPc, crashed: bool,
    ops: Operations, gates: Barriers, time: Instants, verdict: Option<bool>)

  datatype State = State(g: Shared, ws: seq<Worker>)

  // ------------------------------------------------------------------ choices

  /** What a foreign or fallible call does: succeed, return a status, raise otherwise. */
  datatype Outcome = Success | Status | Raise

  datatype Choice = Choice(outcome: Outcome, nonce: nat, os: Bytes, perm: nat, wrap: nat, now: nat, signal: bool)

  datatype Label = Work(i: nat, c: Choice) | Main(c: Choice)

  // ------------------------------------------------------------- worker steps

  datatype Step = Step(g: Shared, w: Worker, notify: bool)

  function Quiet(g: Shared, w: Worker): Step { Step(g, w, false) }

  function Go(g: Shared, w: Worker, pc: Pc): Step { Step(g, w.(pc := pc), false) }

  /** worker_fail */
  function Report(g: Shared, w: Worker, ended: Ended, pc: Pc): Step {
    var past := w.past.(reports := w.past.reports + 1);
    Step(g.(stop := true), w.(failed := true, ended := ended, pc := pc, past := past), false)
  }

  /** An injected exception other than a library status. */
  function Escaping(g: Shared, w: Worker, pc: Pc): Step {
    Step(g, w.(ended := Escaped, pc := pc, past := w.past.(faults := w.past.faults + 1)), false)
  }

  function FailedCall(g: Shared, w: Worker, c: Choice, report: Pc, leave: Pc): Step {
    if c.outcome == Raise then Escaping(g, w, leave)
    else if c.outcome == Status then Go(g, w.(past := w.past.(faults := w.past.faults + 1)), report)
    else Go(g, w, report)
  }

  function RefillStep(cfg: Config, g: Shared, w: Worker, c: Choice): Step
    requires |c.os| == |w.job.plaintext|
  {
    var v := w.(past := w.past.(started := w.past.started + 1));
    if cfg.mode != Payload.Rotating then Go(g, v, ReadLock(Trying))
    else if c.outcome == Raise then Escaping(g, v, Escape)
    else
      var (plaintext, rng) :=
        Payload.Filled(SplitMix.Mix, Payload.Rotating, cfg.seed != 0, w.job.rng, |w.job.plaintext|, c.os);
      Go(g, v.(job := w.job.(plaintext := plaintext, rng := rng), past := v.past.(fills := w.past.fills + 1)),
         ReadLock(Trying))
  }

  function AcquireRead(g: Shared, w: Worker): Step {
    if MayRead(g.lock) then Go(g.(lock := EnterRead(g.lock)), w, Dispatch)
    else Go(g, w, ReadLock(Parked))
  }

  /** Resolves the handle of the surface: at the encrypt, and again at the decrypt when
      the surface is the session pump. */
  function ResolveHandle(cfg: Config, g: Shared, w: Worker, next: Pc): Step {
    var slot := SlotOf(g.pipes, PipeFor(SurfaceOf(cfg, w.it)));
    if slot.None? then Go(g, w.(ended := Escaped), ReleaseRead)
    else Go(g, w.(job := w.job.(handle := slot.value.handle)), next)
  }

  function EncryptStep(cfg: Config, ci: Cipher, g: Shared, w: Worker, c: Choice): Step {
    if c.outcome == Success && Usable(g.pipes, w.job.handle) then
      var k := g.pipes.handles[w.job.handle].keying;
      var wire := ci.enc(SurfaceOf(cfg, w.it), k, c.nonce, w.job.plaintext);
      Go(g, w.(job := w.job.(wire := wire, nonce := c.nonce)), Redispatch)
    else FailedCall(g, w, c, ReportRead, ReleaseRead)
  }

  function DecryptStep(cfg: Config, ci: Cipher, g: Shared, w: Worker, c: Choice): Step {
    if c.outcome == Success && Usable(g.pipes, w.job.handle) then
      var k := g.pipes.handles[w.job.handle].keying;
      Go(g, w.(job := w.job.(got := ci.dec(SurfaceOf(cfg, w.it), k, w.job.wire))), Compare)
    else FailedCall(g, w, c, ReportRead, ReleaseRead)
  }

  function AfterRead(w: Worker): Pc {
    if w.ended == Escaped then Escape
    else if w.it == 0 then ArriveWarm
    else if w.ended == Fine then RekeyCheck else Exit
  }

  function ReleaseReadStep(g: Shared, w: Worker): Step
    requires g.lock.readers > 0
  {
    var lock := LeaveRead(g.lock);
    Step(g.(lock := lock), w.(pc := AfterRead(w)), lock.readers == 0)
  }

  function RekeyCheckStep(cfg: Config, g: Shared, w: Worker, c: Choice): Step {
    if cfg.rekeyEvery > 0 && w.it % cfg.rekeyEvery == 0 then
      if c.outcome == Raise && (cfg.layers.parallax || cfg.layers.wrapper) then Escaping(g, w, Escape)
      else Go(g, w.(job := w.job.(perm := c.perm, wrap := c.wrap)), WriteLock(Rekey, Trying))
    else Go(g, w, CycleCheck)
  }

  function CycleCheckStep(cfg: Config, g: Shared, w: Worker): Step {
    if cfg.cycleEvery > 0 && w.it % cfg.cycleEvery == 0
    then Go(g, w, WriteLock(Cycle, Trying)) else Go(g, w, Advance)
  }

  function AcquireWrite(g: Shared, w: Worker, op: Op): Step {
    if MayWrite(g.lock)
    then Go(g.(lock := EnterWrite(g.lock)), w, if op == Rekey then CallRekey(Stream) else CallLoad(Stream))
    else Go(g, w, WriteLock(op, Parked))
  }

  function AfterPipe(op: Op, which: Which): Pc {
    if which == Message then CountOp(op)
    else if op == Rekey then CallRekey(Message) else CallLoad(Message)
  }

  function CallRekeyStep(cfg: Config, g: Shared, w: Worker, which: Which, c: Choice): Step {
    var slot := SlotOf(g.pipes, which);
    if slot.None? then Go(g, w, AfterPipe(Rekey, which))
    else if c.outcome == Success && Usable(g.pipes, slot.value.handle) then
      Go(g.(pipes := RekeyCall(g.pipes, which, cfg.layers, w.job.perm, w.job.wrap)), w, RetainBlob(which))
    else FailedCall(g, w, c, ReportWrite(Rekey), ReleaseWrite(Rekey))
  }

  function RetainBlobStep(g: Shared, w: Worker, which: Which): Step {
    if SlotOf(g.pipes, which).Some? && g.pipes.stage.Rekeyed?
    then Go(g.(pipes := KeepBlob(g.pipes, which)), w, AfterPipe(Rekey, which))
    else Quiet(g, w)
  }

  function CallLoadStep(g: Shared, w: Worker, which: Which, c: Choice): Step {
    if SlotOf(g.pipes, which).None? then Go(g, w, AfterPipe(Cycle, which))
    else if c.outcome == Success then Go(g.(pipes := LoadCall(g.pipes, which)), w, CallFree(which))
    else FailedCall(g, w, c, ReportWrite(Cycle), ReleaseWrite(Cycle))
  }

  function CallFreeStep(g: Shared, w: Worker, which: Which): Step {
    if SlotOf(g.pipes, which).Some? && g.pipes.stage.Loaded?
    then Go(g.(pipes := FreeOld(g.pipes, which)), w, SwapIn(which))
    else Quiet(g, w)
  }

  function SwapInStep(g: Shared, w: Worker, which: Which): Step {
    if SlotOf(g.pipes, which).Some? && g.pipes.stage.Freed?
    then Go(g.(pipes := Swap(g.pipes, which)), w, AfterPipe(Cycle, which))
    else Quiet(g, w)
  }

  function OpCount(ops: Operations, op: Op): nat {
    if op == Rekey then ops.rekeys else ops.cycles
  }

  /** The store half of `r.rekeys += 1` and `r.blob_cycles += 1`: one more than was loaded,
      whatever the counter is by now. */
  function StoreCountStep(g: Shared, w: Worker, op: Op): Step {
    var v := w.(ended := Fine, pc := ReleaseWrite(op));
    var n := w.job.count + 1;
    if op == Rekey
    then Quiet(g.(ops := g.ops.(rekeys := n)), v.(past := w.past.(rekeyed := w.past.rekeyed + 1)))
    else Quiet(g.(ops := g.ops.(cycles := n)), v.(past := w.past.(cycled := w.past.cycled + 1)))
  }

  function ReleaseWriteStep(g: Shared, w: Worker, op: Op): Step {
    var pc := match w.ended case Fine => Log(op) case Reported => Exit case Escaped => Escape;
    Step(g.(lock := LeaveWrite(g.lock)), w.(pc := pc), true)
  }

  function LogStep(g: Shared, w: Worker, op: Op, c: Choice): Step {
    if c.outcome == Raise then Escaping(g, w, Escape)
    else Go(g, w, if op == Rekey then CycleCheck else Advance)
  }

  function HeadStep(cfg: Config, g: Shared, w: Worker): Step {
    Go(g, w, if cfg.iterations > 0 && w.it >= cfg.iterations then Exit else StopCheck)
  }

  /** _worker_done */
  function ExitStep(g: Shared, w: Worker, c: Choice): Step
    requires g.active > 0
  {
    var g' := g.(active := g.active - 1);
    if g'.active == 0
    then Go(g'.(time := g.time.(finish := c.now, clock := c.now, stamps := g.time.stamps + 1)), w, Done)
    else Go(g', w, Done)
  }

  /** A thread that can take its next step now. */
  predicate Ready(cfg: Config, g: Shared, w: Worker) {
    match w.pc
    case NotStarted => false
    case ReadLock(Parked) => false
    case WriteLock(_, Parked) => false
    case InWarm => g.gates.warm == cfg.workers + 1
    case InRelease => g.gates.release == cfg.workers + 1
    case ReleaseRead => g.lock.readers > 0
    case Exit => g.active > 0
    case Done => false
    case _ => true
  }

  /** The program points of `iterate`, and those of the maintenance operations; the rest
      belong to `worker_main` itself. */
  predicate Iterating(pc: Pc) {
    match pc
    case Refill | ReadLock(_) | Dispatch | Encrypt | Redispatch | Decrypt | Compare
       | CountIter | CountEnc | CountDec | ReportRead | ReleaseRead => true
    case _ => false
  }

  predicate Maintaining(pc: Pc) {
    match pc
    case RekeyCheck | CycleCheck | WriteLock(_, _) | CallRekey(_) | RetainBlob(_) | CallLoad(_)
       | CallFree(_) | SwapIn(_) | CountOp(_) | StoreCount(_) | ReportWrite(_) | ReleaseWrite(_) | Log(_) => true
    case _ => false
  }

  /** iterate */
  function IterateStep(cfg: Config, ci: Cipher, g: Shared, w: Worker, c: Choice): Step
    requires Iterating(w.pc) && Ready(cfg, g, w) && |c.os| == |w.job.plaintext|
  {
    match w.pc
    case Refill => RefillStep(cfg, g, w, c)
    case ReadLock(_) => AcquireRead(g, w)
    case Dispatch => ResolveHandle(cfg, g, w, Encrypt)
    case Encrypt => EncryptStep(cfg, ci, g, w, c)
    case Redispatch =>
      if SurfaceOf(cfg, w.it) == Session then ResolveHandle(cfg, g, w, Decrypt) else Go(g, w, Decrypt)
    case Decrypt => DecryptStep(cfg, ci, g, w, c)
    case Compare => if w.job.got != w.job.plaintext then Quiet(g.(crashed := true), w) else Go(g, w, CountIter)
    case CountIter => Go(g, w.(tally := w.tally.(iters := w.tally.iters + 1)), CountEnc)
    case CountEnc => Go(g, w.(tally := w.tally.(bytesEnc := w.tally.bytesEnc + |w.job.plaintext|)), CountDec)
    case CountDec =>
      Go(g, w.(tally := w.tally.(bytesDec := w.tally.bytesDec + |w.job.got|), ended := Fine), ReleaseRead)
    case ReportRead => Report(g, w, Reported, ReleaseRead)
    case ReleaseRead => ReleaseReadStep(g, w)
  }

  /** worker_maintenance, _rekey_pipes and _blob_cycle_pipes */
  function MaintainStep(cfg: Config, g: Shared, w: Worker, c: Choice): Step
    requires Maintaining(w.pc)
  {
    match w.pc
    case RekeyCheck => RekeyCheckStep(cfg, g, w, c)
    case CycleCheck => CycleCheckStep(cfg, g, w)
    case WriteLock(op, _) => AcquireWrite(g, w, op)
    case CallRekey(which) => CallRekeyStep(cfg, g, w, which, c)
    case RetainBlob(which) => RetainBlobStep(g, w, which)
    case CallLoad(which) => CallLoadStep(g, w, which, c)
    case CallFree(which) => CallFreeStep(g, w, which)
    case SwapIn(which) => SwapInStep(g, w, which)
    case CountOp(op) => Go(g, w.(job := w.job.(count := OpCount(g.ops, op))), StoreCount(op))
    case StoreCount(op) => StoreCountStep(g, w, op)
    case ReportWrite(op) => Report(g, w, Reported, ReleaseWrite(op))
    case ReleaseWrite(op) => ReleaseWriteStep(g, w, op)
    case Log(op) => LogStep(g, w, op, c)
  }

  /** worker_main around the two, and _worker_done */
  function LoopStep(cfg: Config, g: Shared, w: Worker, c: Choice): Step
    requires !Iterating(w.pc) && !Maintaining(w.pc) && Ready(cfg, g, w)
  {
    match w.pc
    case Escape => Report(g, w, Reported, if w.it == 0 then ArriveWarm else Exit)
    case ArriveWarm => Go(g.(gates := g.gates.(warm := g.gates.warm + 1)), w, InWarm)
    case InWarm => Go(g, w, ArriveRelease)
    case ArriveRelease => Go(g.(gates := g.gates.(release := g.gates.release + 1)), w, InRelease)
    case InRelease => Go(g, w, Gate)
    case Gate => if w.ended == Fine then Go(g, w.(it := 1), Head) else Go(g, w, Exit)
    case Head => HeadStep(cfg, g, w)
    case StopCheck => Go(g, w, if g.stop then Exit else Refill)
    case Advance => Go(g, w.(it := w.it + 1), Head)
    case Exit => ExitStep(g, w, c)
  }

  function WorkerStep(cfg: Config, ci: Cipher, g: Shared, w: Worker, c: Choice): Step
    requires Ready(cfg, g, w) && |c.os| == |w.job.plaintext|
  {
    if Iterating(w.pc) then IterateStep(cfg, ci, g, w, c)
    else if Maintaining(w.pc) then MaintainStep(cfg, g, w, c)
    else LoopStep(cfg, g, w, c)
  }

  // ----------------------------------------------------------- launcher steps

  predicate AllDone(ws: seq<Worker>) {
    forall i | 0 <= i < |ws| :: ws[i].pc == Done
  }

  predicate MainReady(cfg: Config, s: State) {
    match s.g.main
    case Launch(k) => true
    case WaitWarm => s.g.gates.warm == cfg.workers + 1
    case WaitRelease => s.g.gates.release == cfg.workers + 1
    case Joining => AllDone(s.ws)
    case Finished => false
    case _ => true
  }

  /** The body of the launcher's wait loop, run with the done condition held. */
  predicate Polls(s: State, l: Label) {
    l.Main? && s.g.main == Waiting && s.g.active > 0
  }

  function WaitStep(cfg: Config, g: Shared, c: Choice): Shared {
    if g.active > 0
    then g.(stop := g.stop || c.signal || (cfg.iterations == 0 && c.now - g.time.start >= cfg.duration),
            time := g.time.(clock := c.now))
    else g.(main := Joining)
  }

  function MainStep(cfg: Config, s: State, c: Choice): State
    requires MainReady(cfg, s)
  {
    var g := s.g;
    match g.main
    case Launch(k) =>
      if k < |s.ws|
      then State(g.(main := Launch(k + 1)), s.ws[k := s.ws[k].(pc := Refill)])
      else State(g.(main := AtWarm), s.ws)
    case AtWarm => State(g.(gates := g.gates.(warm := g.gates.warm + 1), main := WaitWarm), s.ws)
    case WaitWarm => State(g.(main := Baselines), s.ws)
    case Baselines => State(g.(main := OpenGate), s.ws)
    case OpenGate =>
      State(g.(time := g.time.(start := c.now, finish := c.now, clock := c.now), main := AtRelease), s.ws)
    case AtRelease => State(g.(gates := g.gates.(release := g.gates.release + 1), main := WaitRelease), s.ws)
    case WaitRelease => State(g.(main := Waiting), s.ws)
    case Waiting => State(WaitStep(cfg, g, c), s.ws)
    case Joining => State(g.(main := Summary), s.ws)
    case Summary =>
      State(g.(verdict := Some(forall i | 0 <= i < |s.ws| :: !s.ws[i].failed), main := FreePipe(Stream)), s.ws)
    case FreePipe(which) =>
      State(g.(pipes := Release(g.pipes, which),
               main := if which == Stream then FreePipe(Message) else Finished), s.ws)
  }

  // --------------------------------------------------------------- transitions

  function Wake(w: Worker): Worker {
    match w.pc
    case ReadLock(Parked) => w.(pc := ReadLock(Woken))
    case WriteLock(op, Parked) => w.(pc := WriteLock(op, Woken))
    case _ => w
  }

  function WakeAll(ws: seq<Worker>): seq<Worker> {
    seq(|ws|, i requires 0 <= i < |ws| => Wake(ws[i]))
  }

  predicate Enabled(cfg: Config, s: State, l: Label) {
    && !s.g.crashed
    && l.c.now >= s.g.time.clock
    && match l
       case Work(i, c) => i < |s.ws| && Ready(cfg, s.g, s.ws[i]) && |c.os| == |s.ws[i].job.plaintext|
       case Main(c) => MainReady(cfg, s)
  }

  function Apply(cfg: Config, ci: Cipher, s: State, l: Label): State
    requires Enabled(cfg, s, l)
  {
    match l
    case Work(i, c) =>
      var st := WorkerStep(cfg, ci, s.g, s.ws[i], c);
      var ws := s.ws[i := st.w];
      State(st.g, if st.notify then WakeAll(ws) else ws)
    case Main(c) => MainStep(cfg, s, c)
  }

  // ------------------------------------------------------------------ a run

  /** A worker as the launcher builds it, its plaintext apart. */
  predicate FreshWorker(cfg: Config, w: Worker) {
    && w.pc == NotStarted && w.it == 0 && w.ended == Fine && !w.failed
    && w.tally.iters == 0 && w.tally.bytesEnc == 0 && w.tally.bytesDec == 0
    && w.past.fills == 1 && w.past.started == 0 && w.past.rekeyed == 0 && w.past.cycled == 0
    && w.past.reports == 0 && w.past.faults == 0
    && |w.job.plaintext| == cfg.payload
  }

  /** The Pipelines of the shape are built and their blobs retained, no thread runs yet. */
  predicate Built(cfg: Config, s: State) {
    && ValidConfig(cfg)
    && |s.ws| == cfg.workers
    && (forall i | 0 <= i < |s.ws| :: FreshWorker(cfg, s.ws[i]))
    && s.g.lock == Lock(0, false)
    && s.g.pipes.stage == Idle && Consistent(s.g.pipes)
    && (s.g.pipes.stream.Some? <==> Needs(cfg, Stream))
    && (s.g.pipes.message.Some? <==> Needs(cfg, Message))
    && s.g.ops.rekeys == 0 && s.g.ops.cycles == 0
    && s.g.gates.warm == 0 && s.g.gates.release == 0 && s.g.time.stamps == 0
    && s.g.time.start == 0 && s.g.time.finish == 0
    && !s.g.stop && s.g.active == cfg.workers
    && s.g.main == Launch(0) && !s.g.crashed && s.g.verdict == None
  }

  /** Worker i holds the plaintext and generator state of its first fill. */
  ghost predicate FirstFill(cfg: Config, w: Worker, i: nat) {
    exists os: Bytes | |os| == cfg.payload ::
      (w.job.plaintext, w.job.rng) ==
      Payload.Filled(SplitMix.Mix, cfg.mode, cfg.seed != 0, Payload.SeedWorker(cfg.seed, i), cfg.payload, os)
  }

  ghost predicate Init(cfg: Config, s: State) {
    Built(cfg, s) && forall i | 0 <= i < |s.ws| :: FirstFill(cfg, s.ws[i], i)
  }

  /** A run is a sequence of labels, each enabled where it is taken. */
  predicate Runs(cfg: Config, ci: Cipher, s: State, run: seq<Label>)
    decreases |run|
  {
    run != [] ==> Enabled(cfg, s, run[0]) && Runs(cfg, ci, Apply(cfg, ci, s, run[0]), run[1..])
  }

  function After(cfg: Config, ci: Cipher, s: State, run: seq<Label>): State
    requires Runs(cfg, ci, s, run)
    decreases |run|
  {
    if run == [] then s else After(cfg, ci, Apply(cfg, ci, s, run[0]), run[1..])
  }

  /** A state some run gets into from the construction of its Pipelines. */
  ghost predicate Reachable(cfg: Config, ci: Cipher, t: State) {
    exists s, run :: Init(cfg, s) && Runs(cfg, ci, s, run) && After(cfg, ci, s, run) == t
  }
}
