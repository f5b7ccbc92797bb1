/**
 The delivery and shutdown protocol of one transport as an interleaving of atomic steps.

 Every lock section of src/runtime.rs is one step; so are the operations on the job channel and on
 the task that runs a callback. The five kinds of actor are the threads that call the API, the poller,
 the dispatcher, the task of the current callback, and the thread that drops the transport.
 The transport is generic in its sample type `S` and in its message type `M`.
 */
module Protocol {
  import opened Wrappers
  import opened RegistryModel
  import opened Health

  // ---------- What a transport is built from ----------

  /** The carriage of a family: how samples name their origin, and how they become messages. */
  datatype Family<!S, !M> = Family(
    origin: S -> string,
    decode: S -> Result<M, string>,
    source: M -> UUri,
    sink: M -> Option<UUri>)

  datatype Config<!S, !M> = Config(
    originId: string,
    capacity: nat,
    maxSamples: nat,
    matches: Matcher,
    family: Family<S, M>)

  /** The part of `DdsConfig::validate` the protocol relies on. */
  predicate Validated<S, M>(c: Config<S, M>) {
    0 < |c.originId| <= 255 && c.capacity > 0 && c.maxSamples > 0
  }

  // ---------- State ----------

  /** One queued callback: the sample it came from, the registration it is for, and the message. */
  datatype Job<M> = Job(sample: nat, reg: nat, message: M)

  /** A thread inside `unregister`, after it has taken its entry out of the registry. */
  datatype Call = Removed(reg: nat) | Parked(reg: nat) | Woken(reg: nat)

  /** The callback itself may call the API; its thread has this number. */
  const CALLBACK: nat := 0

  datatype Refusal = Full | Disconnected

  datatype Poller<M> =
    | Waiting
    | Taking
    | Batch(pending: seq<Job<M>>)
    | Refused(why: Refusal, pending: seq<Job<M>>)
    | PollerExited(panicked: bool, lost: seq<Job<M>>)

  datatype Outcome = Completed | Panicked | Cancelled

  /** A spawned task; all but the last stage own the in-flight token. */
  datatype Task =
    | Spawned(aborted: bool)
    | Running(aborted: bool)
    | Dropping(outcome: Outcome)
    | Finished(outcome: Outcome)

  /** Where `run_callback` stands. */
  datatype Watch = TestFinished | TestStop | DecideStop | DecideFinished | Joining

  datatype Dispatcher<M> =
    | Receiving
    | Beginning(job: Job<M>)
    | InCallback(job: Job<M>, at: Watch, task: Task)
    | Judging(outcome: Outcome)
    | Recording
    | DispatcherExited

  /** Where the thread that drops the transport stands. */
  datatype Closing =
    | Open
    | JoiningPoller
    | TakingEntries
    | Deactivating(rest: seq<nat>)
    | CloseParked(rest: seq<nat>)
    | CloseWoken(rest: seq<nat>)
    | JoiningDispatcher
    | Closed

  /** One `matching` snapshot: the entries listed at that moment and those whose filters accepted. */
  datatype Snapshot<M> = Snapshot(sample: nat, message: M, listed: seq<nat>, chosen: seq<nat>)

  datatype Offer<M> = Offer(job: Job<M>, sent: bool)

  datatype Fate = Skipped | Ran(outcome: Outcome)

  datatype Processed<M> = Processed(job: Job<M>, fate: Fate)

  datatype ApiEvent =
    | RegisterEvent(key: Key, ok: bool)
    | UnregisterEvent(key: Key, ok: bool)
    | TakeAllEvent

  /**
   What has happened so far. Only `taken` and `examined` also steer the poller. `retired` holds the
   generations whose `deactivate_and_wait` has returned; `reported` holds, for each callback panic in the
   health log, the position in `processed` of the job it is about.
   */
  datatype History<S, M> = History(
    taken: seq<Option<S>>,
    examined: nat,
    snapshots: seq<Snapshot<M>>,
    offers: seq<Offer<M>>,
    started: seq<Job<M>>,
    released: seq<Job<M>>,
    processed: seq<Processed<M>>,
    retired: set<nat>,
    api: seq<ApiEvent>,
    failedTakes: nat,
    reported: seq<nat>)

  /** `inside` says that the transport is being dropped by the running callback, on the callback's own task. */
  datatype State<S, M> = State(
    registry: Registry,
    calls: map<nat, Call>,
    poller: Poller<M>,
    queue: seq<Job<M>>,
    dispatcher: Dispatcher<M>,
    closing: Closing,
    stopped: bool,
    inside: bool,
    health: seq<HealthErrorKind>,
    history: History<S, M>)

  function Init<S, M>(): State<S, M> {
    State(Registry([], {}, multiset{}, []), map[], Waiting, [], Receiving, Open, false, false, [],
          History([], 0, [], [], [], [], [], {}, [], 0, []))
  }

  // ---------- API threads ----------

  datatype ApiStep =
    | Register(key: Key)
    | Unregister(thread: nat, key: Key)
    | Deactivate(thread: nat)
    | Recheck(thread: nat)
    | SpuriousWake(thread: nat)

  /** Listener code is running, so it may call the API. */
  predicate CallbackBody<S, M>(s: State<S, M>) {
    s.dispatcher.InCallback? && s.dispatcher.task.Running?
  }

  function Heard<S, M>(s: State<S, M>, event: ApiEvent): History<S, M> {
    s.history.(api := s.history.api + [event])
  }

  function DoRegister<S, M>(s: State<S, M>, key: Key): Option<State<S, M>> {
    if s.closing != Open then None
    else if s.registry.Find(key).Some? then Some(s.(history := Heard(s, RegisterEvent(key, false))))
    else Some(s.(registry := s.registry.Insert(key), history := Heard(s, RegisterEvent(key, true))))
  }

  /** The write-lock section of `unregister`: look the key up and take its entry out. */
  function DoUnregister<S, M>(s: State<S, M>, thread: nat, key: Key): Option<State<S, M>> {
    if s.closing != Open || thread in s.calls || (thread == CALLBACK && !CallbackBody(s)) then None
    else
      match s.registry.Find(key)
      case None => Some(s.(history := Heard(s, UnregisterEvent(key, false))))
      case Some(index) =>
        Some(s.(registry := s.registry.RemoveAt(index),
                calls := s.calls[thread := Removed(s.registry.entries[index])],
                history := Heard(s, UnregisterEvent(key, true))))
  }

  function Retire<S, M>(s: State<S, M>, reg: nat): History<S, M> {
    s.history.(retired := s.history.retired + {reg})
  }

  /** `unregister` returns Ok. */
  function Return<S, M>(s: State<S, M>, thread: nat, reg: nat): State<S, M> {
    s.(calls := s.calls - {thread}, history := Retire(s, reg))
  }

  /** First section of `deactivate_and_wait`, up to the return or the first wait. */
  function DoDeactivate<S, M>(s: State<S, M>, thread: nat): Option<State<S, M>> {
    if thread !in s.calls || !s.calls[thread].Removed? then None
    else
      var reg := s.calls[thread].reg;
      var t := s.(registry := s.registry.Deactivate(reg));
      if reg !in s.registry.tokens then Some(Return(t, thread, reg))
      else Some(t.(calls := s.calls[thread := Parked(reg)]))
  }

  /** A woken waiter tests its condition again under the lock. */
  function DoRecheck<S, M>(s: State<S, M>, thread: nat): Option<State<S, M>> {
    if thread !in s.calls || !s.calls[thread].Woken? then None
    else
      var reg := s.calls[thread].reg;
      if reg !in s.registry.tokens then Some(Return(s, thread, reg))
      else Some(s.(calls := s.calls[thread := Parked(reg)]))
  }

  function DoSpuriousWake<S, M>(s: State<S, M>, thread: nat): Option<State<S, M>> {
    if thread !in s.calls || !s.calls[thread].Parked? then None
    else Some(s.(calls := s.calls[thread := Woken(s.calls[thread].reg)]))
  }

  function ApiNext<S, M>(s: State<S, M>, step: ApiStep): Option<State<S, M>> {
    match step
    case Register(key) => DoRegister(s, key)
    case Unregister(thread, key) => DoUnregister(s, thread, key)
    case Deactivate(thread) => DoDeactivate(s, thread)
    case Recheck(thread) => DoRecheck(s, thread)
    case SpuriousWake(thread) => DoSpuriousWake(s, thread)
  }

  // ---------- Poller ----------

  datatype TakeResult<S> = Samples(samples: seq<Option<S>>) | NoData | TakeFailed

  datatype PollerStep<S> = Wake | Take(result: TakeResult<S>) | Advance | RecordRefusal | PollerPanic

  /** `StopToken::wait` at the head of the loop. Leaving the loop drops the only sender. */
  function DoWake<S, M>(s: State<S, M>): Option<State<S, M>> {
    if !s.poller.Waiting? then None
    else Some(s.(poller := if s.stopped then PollerExited(false, []) else Taking))
  }

  function DoTake<S, M>(c: Config<S, M>, s: State<S, M>, result: TakeResult<S>): Option<State<S, M>> {
    if !s.poller.Taking? then None
    else
      match result
      case Samples(samples) =>
        if |samples| > c.maxSamples then None
        else Some(s.(poller := Batch([]), history := s.history.(taken := s.history.taken + samples)))
      case NoData => Some(s.(poller := Waiting))
      case TakeFailed =>
        Some(s.(poller := Waiting, health := s.health + [Dds],
                history := s.history.(failedTakes := s.history.failedTakes + 1)))
  }

  /** `submit`: a non-blocking send on the bounded channel whose receiver the dispatcher owns. */
  function DoSubmit<S, M>(c: Config<S, M>, s: State<S, M>): Option<State<S, M>> {
    if !s.poller.Batch? || |s.poller.pending| == 0 then None
    else
      var job, rest := s.poller.pending[0], s.poller.pending[1..];
      var sent := |s.queue| < c.capacity && !s.dispatcher.DispatcherExited?;
      var t := s.(history := s.history.(offers := s.history.offers + [Offer(job, sent)]));
      if sent then Some(t.(poller := Batch(rest), queue := s.queue + [job]))
      else Some(t.(poller := Refused(if s.dispatcher.DispatcherExited? then Disconnected else Full, rest)))
  }

  /** The sample holds data of another origin. */
  predicate Foreign<S, M>(c: Config<S, M>, sample: Option<S>) {
    sample.Some? && c.family.origin(sample.value) != c.originId
  }

  predicate Accepted<S, M>(c: Config<S, M>, sample: Option<S>) {
    Foreign(c, sample) && c.family.decode(sample.value).Ok?
  }

  predicate Malformed<S, M>(c: Config<S, M>, sample: Option<S>) {
    Foreign(c, sample) && c.family.decode(sample.value).Err?
  }

  function Chosen<S, M>(c: Config<S, M>, r: Registry, message: M): seq<nat> {
    Select(c.matches, r.keys, r.entries, c.family.source(message), c.family.sink(message))
  }

  function JobsFor<M>(sample: nat, message: M, regs: seq<nat>): (jobs: seq<Job<M>>)
    ensures |jobs| == |regs|
    ensures forall i :: 0 <= i < |regs| ==> jobs[i] == Job(sample, regs[i], message)
  {
    seq(|regs|, i requires 0 <= i < |regs| => Job(sample, regs[i], message))
  }

  /** Look at the next sample of the batch: ignore it, report it, or take its `matching` snapshot. */
  function DoExamine<S, M>(c: Config<S, M>, s: State<S, M>): Option<State<S, M>> {
    if !s.poller.Batch? || |s.poller.pending| != 0 || s.history.examined >= |s.history.taken| then None
    else
      var index := s.history.examined;
      var sample := s.history.taken[index];
      var t := s.(history := s.history.(examined := index + 1));
      if Accepted(c, sample) then
        var message := c.family.decode(sample.value).value;
        var chosen := Chosen(c, s.registry, message);
        var snapshot := Snapshot(index, message, s.registry.entries, chosen);
        Some(t.(poller := Batch(JobsFor(index, message, chosen)),
                history := t.history.(snapshots := s.history.snapshots + [snapshot])))
      else if Malformed(c, sample) then Some(t.(health := s.health + [MalformedSample]))
      else Some(t)
  }

  function DoAdvance<S, M>(c: Config<S, M>, s: State<S, M>): Option<State<S, M>> {
    if !s.poller.Batch? then None
    else if |s.poller.pending| != 0 then DoSubmit(c, s)
    else if s.history.examined < |s.history.taken| then DoExamine(c, s)
    else Some(s.(poller := Waiting))
  }

  function DoRecordRefusal<S, M>(s: State<S, M>): Option<State<S, M>> {
    if !s.poller.Refused? then None
    else Some(s.(poller := Batch(s.poller.pending), health := s.health + [DispatchBackpressure]))
  }

  /** Foreign code (the reader, a codec) panics on the poller thread; what was pending is lost. */
  function DoPollerPanic<S, M>(s: State<S, M>): Option<State<S, M>> {
    match s.poller
    case Taking => Some(s.(poller := PollerExited(true, [])))
    case Batch(pending) => Some(s.(poller := PollerExited(true, pending)))
    case _ => None
  }

  function PollerNext<S, M>(c: Config<S, M>, s: State<S, M>, step: PollerStep<S>): Option<State<S, M>> {
    match step
    case Wake => DoWake(s)
    case Take(result) => DoTake(c, s, result)
    case Advance => DoAdvance(c, s)
    case RecordRefusal => DoRecordRefusal(s)
    case PollerPanic => DoPollerPanic(s)
  }

  // ---------- Dispatcher ----------

  datatype DispatcherStep = Receive | Disconnect | Begin | Observe | Join | Judge | RecordPanic

  function DoReceive<S, M>(s: State<S, M>): Option<State<S, M>> {
    if !s.dispatcher.Receiving? || |s.queue| == 0 then None
    else Some(s.(dispatcher := Beginning(s.queue[0]), queue := s.queue[1..]))
  }

  /** `recv` fails only once the queue is empty and its sender is gone. */
  function DoDisconnect<S, M>(s: State<S, M>): Option<State<S, M>> {
    if !s.dispatcher.Receiving? || |s.queue| != 0 || !s.poller.PollerExited? then None
    else Some(s.(dispatcher := DispatcherExited))
  }

  function Note<S, M>(s: State<S, M>, job: Job<M>, fate: Fate): History<S, M> {
    s.history.(processed := s.history.processed + [Processed(job, fate)])
  }

  /** `begin`, and on success the spawn of the future that owns the token. */
  function DoBegin<S, M>(s: State<S, M>): Option<State<S, M>> {
    if !s.dispatcher.Beginning? then None
    else
      var job := s.dispatcher.job;
      if job.reg !in s.registry.active then Some(s.(dispatcher := Receiving, history := Note(s, job, Skipped)))
      else Some(s.(registry := s.registry.Acquire(job.reg),
                   dispatcher := InCallback(job, TestFinished, Spawned(false)),
                   history := s.history.(started := s.history.started + [job])))
  }

  function Aborted(task: Task): Task {
    match task
    case Spawned(_) => Spawned(true)
    case Running(_) => Running(true)
    case _ => task
  }

  /** The loop of `run_callback` and the decision to abort, one read of shared state at a time. */
  function DoObserve<S, M>(s: State<S, M>): Option<State<S, M>> {
    if !s.dispatcher.InCallback? then None
    else
      var d := s.dispatcher;
      match d.at
      case TestFinished => Some(s.(dispatcher := d.(at := if d.task.Finished? then DecideStop else TestStop)))
      case TestStop => Some(s.(dispatcher := d.(at := if s.stopped then DecideStop else TestFinished)))
      case DecideStop => Some(s.(dispatcher := d.(at := if s.stopped then DecideFinished else Joining)))
      case DecideFinished =>
        Some(s.(dispatcher := InCallback(d.job, Joining, if d.task.Finished? then d.task else Aborted(d.task))))
      case Joining => None
  }

  /** `block_on(task)` returns once the task is finished. */
  function DoJoin<S, M>(s: State<S, M>): Option<State<S, M>> {
    if !s.dispatcher.InCallback? || !s.dispatcher.at.Joining? || !s.dispatcher.task.Finished? then None
    else
      var outcome := s.dispatcher.task.outcome;
      Some(s.(dispatcher := if outcome == Completed then Receiving else Judging(outcome),
              history := Note(s, s.dispatcher.job, Ran(outcome))))
  }

  /** A failed join counts as a panic unless the stop flag is up by now. */
  function DoJudge<S, M>(s: State<S, M>): Option<State<S, M>> {
    if !s.dispatcher.Judging? then None
    else Some(s.(dispatcher := if s.stopped then Receiving else Recording))
  }

  /** The position of the job processed last. */
  function LastAt<M>(processed: seq<Processed<M>>): seq<nat> {
    if |processed| == 0 then [] else [|processed| - 1]
  }

  function DoRecordPanic<S, M>(s: State<S, M>): Option<State<S, M>> {
    if !s.dispatcher.Recording? then None
    else Some(s.(dispatcher := Receiving, health := s.health + [CallbackPanic],
                 history := s.history.(reported := s.history.reported + LastAt(s.history.processed))))
  }

  function DispatcherNext<S, M>(s: State<S, M>, step: DispatcherStep): Option<State<S, M>> {
    match step
    case Receive => DoReceive(s)
    case Disconnect => DoDisconnect(s)
    case Begin => DoBegin(s)
    case Observe => DoObserve(s)
    case Join => DoJoin(s)
    case Judge => DoJudge(s)
    case RecordPanic => DoRecordPanic(s)
  }

  // ---------- The task of the current callback ----------

  datatype TaskStep = Start | End(panics: bool) | Cancel | ReleaseToken

  function WithTask<S, M>(s: State<S, M>, task: Task): State<S, M>
    requires s.dispatcher.InCallback?
  {
    s.(dispatcher := s.dispatcher.(task := task))
  }

  /** First poll of the future; a task aborted before it never runs listener code. */
  function DoStart<S, M>(s: State<S, M>): Option<State<S, M>> {
    if s.dispatcher.InCallback? && s.dispatcher.task == Spawned(false) then Some(WithTask(s, Running(false))) else None
  }

  /** The callback is inside an API call, or inside the drop of the transport. */
  predicate CallbackBusy<S, M>(s: State<S, M>) {
    CALLBACK in s.calls || s.inside
  }

  /** The callback returns or panics; not while it is itself inside the transport's code. */
  function DoEnd<S, M>(s: State<S, M>, panics: bool): Option<State<S, M>> {
    if !CallbackBody(s) || CallbackBusy(s) then None
    else Some(WithTask(s, Dropping(if panics then Panicked else Completed)))
  }

  /** The runtime honours an abort at a point where the callback yields. */
  function DoCancel<S, M>(s: State<S, M>): Option<State<S, M>> {
    if s.dispatcher.InCallback? && !CallbackBusy(s)
       && (s.dispatcher.task == Spawned(true) || s.dispatcher.task == Running(true))
    then Some(WithTask(s, Dropping(Cancelled)))
    else None
  }

  function WakeCalls(calls: map<nat, Call>, reg: nat): map<nat, Call> {
    map t | t in calls :: if calls[t] == Parked(reg) then Woken(reg) else calls[t]
  }

  function WakeClosing(closing: Closing, reg: nat): Closing {
    if closing.CloseParked? && closing.rest != [] && closing.rest[0] == reg then CloseWoken(closing.rest) else closing
  }

  /** The future is dropped and with it the token; the last token notifies every waiter. */
  function DoRelease<S, M>(s: State<S, M>): Option<State<S, M>> {
    if !s.dispatcher.InCallback? || !s.dispatcher.task.Dropping? then None
    else
      var job := s.dispatcher.job;
      var registry := s.registry.Release(job.reg);
      var t := s.(registry := registry,
                  dispatcher := s.dispatcher.(task := Finished(s.dispatcher.task.outcome)),
                  history := s.history.(released := s.history.released + [job]));
      if job.reg !in registry.tokens
      then Some(t.(calls := WakeCalls(s.calls, job.reg), closing := WakeClosing(s.closing, job.reg)))
      else Some(t)
  }

  function TaskNext<S, M>(s: State<S, M>, step: TaskStep): Option<State<S, M>> {
    match step
    case Start => DoStart(s)
    case End(panics) => DoEnd(s, panics)
    case Cancel => DoCancel(s)
    case ReleaseToken => DoRelease(s)
  }

  // ---------- The thread that drops the transport ----------

  datatype CloseStep =
    | Stop(inside: bool)
    | JoinPoller
    | TakeEntries
    | DeactivateNext
    | RecheckNext
    | SpuriousNext
    | JoinDispatcher

  /**
   Dropping needs exclusive ownership, so no API call is pending. The last handle may be dropped by the
   running callback itself.
   */
  function DoStop<S, M>(s: State<S, M>, inside: bool): Option<State<S, M>> {
    if s.closing != Open || s.calls != map[] || (inside && !CallbackBody(s)) then None
    else Some(s.(closing := JoiningPoller, stopped := true, inside := inside))
  }

  function DoJoinPoller<S, M>(s: State<S, M>): Option<State<S, M>> {
    if s.closing != JoiningPoller || !s.poller.PollerExited? then None
    else Some(s.(closing := TakingEntries, health := if s.poller.panicked then s.health + [WorkerPanic] else s.health))
  }

  function DoTakeEntries<S, M>(s: State<S, M>): Option<State<S, M>> {
    if s.closing != TakingEntries then None
    else Some(s.(closing := Deactivating(s.registry.entries), registry := s.registry.Clear(),
                 history := Heard(s, TakeAllEvent)))
  }

  /** The dropping thread is done with the first entry it holds, or waits for it. */
  function WaitFirst<S, M>(s: State<S, M>, rest: seq<nat>): State<S, M>
    requires rest != []
  {
    if rest[0] !in s.registry.tokens then s.(closing := Deactivating(rest[1..]), history := Retire(s, rest[0]))
    else s.(closing := CloseParked(rest))
  }

  function DoDeactivateNext<S, M>(s: State<S, M>): Option<State<S, M>> {
    if !s.closing.Deactivating? then None
    else if s.closing.rest == [] then Some(s.(closing := JoiningDispatcher))
    else Some(WaitFirst(s.(registry := s.registry.Deactivate(s.closing.rest[0])), s.closing.rest))
  }

  function DoRecheckNext<S, M>(s: State<S, M>): Option<State<S, M>> {
    if !s.closing.CloseWoken? || s.closing.rest == [] then None else Some(WaitFirst(s, s.closing.rest))
  }

  function DoSpuriousNext<S, M>(s: State<S, M>): Option<State<S, M>> {
    if !s.closing.CloseParked? then None else Some(s.(closing := CloseWoken(s.closing.rest)))
  }

  function DoJoinDispatcher<S, M>(s: State<S, M>): Option<State<S, M>> {
    if s.closing != JoiningDispatcher || !s.dispatcher.DispatcherExited? then None
    else Some(s.(closing := Closed))
  }

  function CloseNext<S, M>(s: State<S, M>, step: CloseStep): Option<State<S, M>> {
    match step
    case Stop(inside) => DoStop(s, inside)
    case JoinPoller => DoJoinPoller(s)
    case TakeEntries => DoTakeEntries(s)
    case DeactivateNext => DoDeactivateNext(s)
    case RecheckNext => DoRecheckNext(s)
    case SpuriousNext => DoSpuriousNext(s)
    case JoinDispatcher => DoJoinDispatcher(s)
  }

  // ---------- Runs ----------

  datatype Step<S> =
    | Api(api: ApiStep)
    | Poll(poll: PollerStep<S>)
    | Dispatch(dispatch: DispatcherStep)
    | Run(task: TaskStep)
    | Close(close: CloseStep)

  /** The state after one step, or None when the step is not enabled. */
  function Next<S, M>(c: Config<S, M>, s: State<S, M>, step: Step<S>): Option<State<S, M>> {
    match step
    case Api(api) => ApiNext(s, api)
    case Poll(poll) => PollerNext(c, s, poll)
    case Dispatch(dispatch) => DispatcherNext(s, dispatch)
    case Run(task) => TaskNext(s, task)
    case Close(close) => CloseNext(s, close)
  }

  /** The state after a whole schedule, or None when some step of it is not enabled. */
  ghost function After<S, M>(c: Config<S, M>, s: State<S, M>, steps: seq<Step<S>>): Option<State<S, M>>
    decreases steps
  {
    if steps == [] then Some(s)
    else
      match Next(c, s, steps[0])
      case None => None
      case Some(t) => After(c, t, steps[1..])
  }

  /** `t` is reached from `s` by some schedule. */
  ghost predicate Reaches<S(!new), M>(c: Config<S, M>, s: State<S, M>, t: State<S, M>) {
    exists steps: seq<Step<S>> :: After(c, s, steps) == Some(t)
  }

  ghost predicate Reachable<S(!new), M>(c: Config<S, M>, s: State<S, M>) {
    Reaches(c, Init(), s)
  }
}
