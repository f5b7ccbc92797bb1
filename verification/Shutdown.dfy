/**
 Dropping a transport: after `stop` every step of the workers lowers a rank, some such step is always
 possible until the drop is done, and what the drop leaves behind is quiet for good.
 */
module Shutdown {
  import opened Wrappers
  import opened RegistryModel
  import opened Protocol
  import opened Safety
  import opened Delivery
  import opened Linearization
  import opened Invariant
  import opened Returning
  import opened Unregistering

  // ---------- The rank ----------

  /** Compared from left to right. */
  datatype Rank = Rank(samples: nat, offers: nat, queued: nat, dispatch: nat, phase: nat, held: nat, waiting: nat)

  ghost predicate Below(a: Rank, b: Rank) {
    || a.samples < b.samples
    || (a.samples == b.samples && (a.offers < b.offers
    || (a.offers == b.offers && (a.queued < b.queued
    || (a.queued == b.queued && (a.dispatch < b.dispatch
    || (a.dispatch == b.dispatch && (a.phase < b.phase
    || (a.phase == b.phase && (a.held < b.held
    || (a.held == b.held && a.waiting < b.waiting)))))))))))
  }

  /** Samples the poller may still look at, and the turns of its loop. */
  ghost function SamplesLeft<S, M>(c: Config<S, M>, s: State<S, M>): nat {
    match s.poller
    case PollerExited(_, _) => 0
    case Waiting => 1
    case Taking => c.maxSamples + 3
    case _ => (if s.history.examined <= |s.history.taken| then |s.history.taken| - s.history.examined else 0) + 2
  }

  ghost function OffersLeft<M>(poller: Poller<M>): nat {
    match poller
    case Batch(pending) => 2 * |pending|
    case Refused(_, pending) => 2 * |pending| + 1
    case _ => 0
  }

  ghost function WatchRank(at: Watch): nat {
    match at
    case TestFinished => 4
    case TestStop => 3
    case DecideStop => 2
    case DecideFinished => 1
    case Joining => 0
  }

  ghost function DispatchRank<M>(d: Dispatcher<M>): nat {
    match d
    case DispatcherExited => 0
    case Receiving => 1
    case Recording => 2
    case Judging(_) => 3
    case InCallback(_, at, task) => 4 + WatchRank(at) + StagesLeft(task)
    case Beginning(_) => 12
  }

  ghost function PhaseRank(closing: Closing): nat {
    match closing
    case Open => 5
    case JoiningPoller => 4
    case TakingEntries => 3
    case JoiningDispatcher => 1
    case Closed => 0
    case _ => 2
  }

  ghost function WaitingRank(closing: Closing): nat {
    match closing
    case Deactivating(_) => 2
    case CloseWoken(_) => 1
    case _ => 0
  }

  ghost function RankOf<S, M>(c: Config<S, M>, s: State<S, M>): Rank {
    Rank(SamplesLeft(c, s), OffersLeft(s.poller), |s.queue|, DispatchRank(s.dispatcher),
         PhaseRank(s.closing), |Held(s.closing)|, WaitingRank(s.closing))
  }

  /** A step of a worker, of the current task or of the dropping thread; a spurious wake-up is a stutter. */
  ghost predicate Progress<S>(step: Step<S>) {
    !step.Api? && step != Close(SpuriousNext)
  }

  // ---------- Every step lowers it ----------

  lemma PollerLowers<S, M>(c: Config<S, M>, s: State<S, M>, step: PollerStep<S>)
    requires ControlOk(s) && s.stopped && PollerNext(c, s, step).Some?
    ensures Below(RankOf(c, PollerNext(c, s, step).value), RankOf(c, s))
    ensures PollerNext(c, s, step).value.stopped
  {
    hide Chosen, JobsFor, Accepted, Malformed, DispatchRank, Held;
  }

  lemma DispatcherLowers<S, M>(c: Config<S, M>, s: State<S, M>, step: DispatcherStep)
    requires s.stopped && DispatcherNext(s, step).Some?
    ensures Below(RankOf(c, DispatcherNext(s, step).value), RankOf(c, s))
    ensures DispatcherNext(s, step).value.stopped
  {
    hide Held, OffersLeft;
  }

  lemma TaskLowers<S, M>(c: Config<S, M>, s: State<S, M>, step: TaskStep)
    requires s.stopped && TaskNext(s, step).Some?
    ensures Below(RankOf(c, TaskNext(s, step).value), RankOf(c, s))
    ensures TaskNext(s, step).value.stopped
  {
    hide Held, OffersLeft, WakeCalls, WakeClosing;
  }

  lemma CloseLowers<S, M>(c: Config<S, M>, s: State<S, M>, step: CloseStep)
    requires ControlOk(s) && s.stopped && step != SpuriousNext && CloseNext(s, step).Some?
    ensures Below(RankOf(c, CloseNext(s, step).value), RankOf(c, s))
    ensures CloseNext(s, step).value.stopped
  {
    hide OffersLeft, DispatchRank;
  }

  /** After `stop`, every step of poller, dispatcher, task or dropping thread strictly lowers the rank. */
  lemma StepLowers<S(!new), M>(c: Config<S, M>, s: State<S, M>, step: Step<S>, t: State<S, M>)
    requires Reachable(c, s) && s.stopped && Progress(step) && Next(c, s, step) == Some(t)
    ensures Below(RankOf(c, t), RankOf(c, s)) && t.stopped
  {
    InvReachable(c, s);
    hide Reachable;
    hide RankOf, Below, RegsOk, JobsOk, ApiOk, PollerNext, DispatcherNext, TaskNext, CloseNext;
    match step
    case Poll(p) => PollerLowers(c, s, p);
    case Dispatch(d) => DispatcherLowers(c, s, d);
    case Run(k) => TaskLowers(c, s, k);
    case Close(k) => CloseLowers(c, s, k);
  }

  // ---------- Some step is possible ----------

  /** What a poller can always do next. */
  function PollerMove<S, M>(poller: Poller<M>): PollerStep<S> {
    match poller
    case Waiting => Wake
    case Taking => Take(NoData)
    case Batch(_) => Advance
    case _ => RecordRefusal
  }

  lemma PollerCanStep<S, M>(c: Config<S, M>, s: State<S, M>)
    requires !s.poller.PollerExited?
    ensures PollerNext(c, s, PollerMove(s.poller)).Some?
  {
    hide Chosen, JobsFor, Accepted, Malformed;
  }

  /** What the dispatcher, or the task it waits for, can do next. */
  function DispatcherMove<S, M>(s: State<S, M>): Step<S> {
    match s.dispatcher
    case Receiving => Dispatch(if |s.queue| == 0 then Disconnect else Receive)
    case Beginning(_) => Dispatch(Begin)
    case InCallback(_, at, task) =>
      if !at.Joining? then Dispatch(Observe)
      else if task.Finished? then Dispatch(Join)
      else Run(TaskMove(task))
    case Judging(_) => Dispatch(Judge)
    case _ => Dispatch(RecordPanic)
  }

  lemma DispatcherCanStep<S, M>(c: Config<S, M>, s: State<S, M>)
    requires s.poller.PollerExited? && !s.dispatcher.DispatcherExited? && !CallbackBusy(s)
    ensures Progress(DispatcherMove(s)) && Next(c, s, DispatcherMove(s)).Some?
  {
    hide PollerNext, CloseNext, WakeCalls, WakeClosing, Aborted;
    if s.dispatcher.InCallback? && !s.dispatcher.task.Finished? {
      TaskMovesOn(s);
    }
  }

  /** The dropping thread waits for somebody else. */
  ghost predicate Blocked<S, M>(s: State<S, M>) {
    match s.closing
    case JoiningPoller => !s.poller.PollerExited?
    case JoiningDispatcher => !s.dispatcher.DispatcherExited?
    case CloseParked(_) => true
    case _ => false
  }

  /** What somebody else can do next while the dropping thread waits. */
  function OtherMove<S, M>(s: State<S, M>): Step<S> {
    match s.closing
    case JoiningPoller => Poll(PollerMove(s.poller))
    case JoiningDispatcher => DispatcherMove(s)
    case _ => Run(if s.dispatcher.InCallback? then TaskMove(s.dispatcher.task) else ReleaseToken)
  }

  /** What the dropping thread can rely on. */
  ghost predicate ClosingReady<S, M>(s: State<S, M>) {
    && s.calls == map[] && s.closing != Open
    && (s.closing != JoiningPoller ==> s.poller.PollerExited?)
    && (s.closing.CloseWoken? ==> s.closing.rest != [])
    && (s.closing.CloseParked? ==> s.dispatcher.InCallback? && !s.dispatcher.task.Finished?)
  }

  lemma ClosingFacts<S, M>(c: Config<S, M>, s: State<S, M>)
    requires Inv(c, s) && s.stopped
    ensures ClosingReady(s)
  {
    hide JobsOk, ApiOk, Registry.Valid, AllOwned, OwnersOk, CallsOk;
  }

  /** While the dropping thread waits, and is not the callback itself, somebody else can go on. */
  lemma OthersCanStep<S, M>(c: Config<S, M>, s: State<S, M>)
    requires ClosingReady(s) && !s.inside && Blocked(s)
    ensures Progress(OtherMove(s)) && !OtherMove(s).Close? && Next(c, s, OtherMove(s)).Some?
  {
    hide PollerNext, DispatcherNext, TaskNext, CloseNext, ApiNext;
    match s.closing
    case JoiningPoller => PollerCanStep(c, s);
    case JoiningDispatcher => DispatcherCanStep(c, s);
    case _ => TaskMovesOn(s);
  }

  /** Otherwise it can go on itself. */
  lemma CloserCanStep<S, M>(s: State<S, M>) returns (step: CloseStep)
    requires ClosingReady(s) && !Blocked(s) && s.closing != Closed
    ensures step != SpuriousNext && CloseNext(s, step).Some?
  {
    match s.closing
    case JoiningPoller => step := JoinPoller;
    case TakingEntries => step := TakeEntries;
    case Deactivating(_) => step := DeactivateNext;
    case CloseWoken(_) => step := RecheckNext;
    case JoiningDispatcher => step := JoinDispatcher;
  }

  /** Until the drop is done, a worker, the current task or the dropping thread has a step to take. */
  lemma SomeStepPossible<S(!new), M>(c: Config<S, M>, s: State<S, M>) returns (step: Step<S>)
    requires Reachable(c, s) && s.stopped && !s.inside && s.closing != Closed
    ensures Progress(step) && Next(c, s, step).Some?
  {
    hide Inv, ClosingReady, Blocked, Next, Reachable;
    InvReachable(c, s);
    ClosingFacts(c, s);
    if Blocked(s) {
      OthersCanStep(c, s);
      step := OtherMove(s);
    } else {
      var k := CloserCanStep(s);
      NextOfClose(c, s, k);
      step := Close(k);
    }
  }

  lemma NextOfClose<S, M>(c: Config<S, M>, s: State<S, M>, k: CloseStep)
    ensures Next(c, s, Close(k)) == CloseNext(s, k)
  {
    hide CloseNext;
  }

  // ---------- Every scheduler finishes ----------

  /** A scheduler that, until the drop is done, always runs somebody who can take a step. */
  ghost predicate Schedules<S(!new), M(!new)>(c: Config<S, M>, choose: State<S, M> -> Step<S>) {
    forall s :: Reachable(c, s) && s.stopped && !s.inside && s.closing != Closed ==>
                  Progress(choose(s)) && Next(c, s, choose(s)).Some?
  }

  /** There is such a scheduler. */
  lemma SchedulerExists<S(!new), M(!new)>(c: Config<S, M>)
    ensures exists choose: State<S, M> -> Step<S> :: Schedules(c, choose)
  {
    hide Reachable, Next;
    forall s: State<S, M> | Reachable(c, s) && s.stopped && !s.inside && s.closing != Closed
      ensures exists step: Step<S> :: Progress(step) && Next(c, s, step).Some?
    {
      var step := SomeStepPossible(c, s);
    }
    var choose := (s: State<S, M>) =>
      if Reachable(c, s) && s.stopped && !s.inside && s.closing != Closed
      then var step: Step<S> :| Progress(step) && Next(c, s, step).Some?; step
      else Dispatch(Receive);
    assert Schedules(c, choose);
  }

  /** The first `n` steps the scheduler chooses. */
  ghost function ScheduledBy<S, M>(c: Config<S, M>, choose: State<S, M> -> Step<S>, s: State<S, M>,
                                   n: nat): seq<Step<S>>
    decreases n
  {
    if n == 0 then []
    else
      match Next(c, s, choose(s))
      case None => []
      case Some(t) => [choose(s)] + ScheduledBy(c, choose, t, n - 1)
  }

  /** After `n` steps of the scheduler the drop is done. */
  ghost predicate DoneAfter<S, M>(c: Config<S, M>, choose: State<S, M> -> Step<S>, s: State<S, M>, n: nat) {
    var t := After(c, s, ScheduledBy(c, choose, s, n));
    t.Some? && t.value.closing == Closed
  }

  /** Once the drop has begun it is settled who drops. */
  lemma InsideStays<S, M>(c: Config<S, M>, s: State<S, M>, step: Step<S>, t: State<S, M>)
    requires s.stopped && s.closing != Open && Next(c, s, step) == Some(t)
    ensures t.inside == s.inside
  {
    hide ApiNext, PollerNext, DispatcherNext, TaskNext, CloseNext;
    match step
    case Api(a) => var u := ApiWrites(s, a);
    case Poll(p) => var u := PollerWrites(c, s, p);
    case Dispatch(d) => var u := DispatcherWrites(s, d);
    case Run(k) => var u := TaskWrites(s, k);
    case Close(k) => var u := CloseWrites(s, k);
  }

  lemma StoppedIsClosing<S(!new), M>(c: Config<S, M>, s: State<S, M>)
    requires Reachable(c, s) && s.stopped
    ensures s.closing != Open
  {
    InvReachable(c, s);
    hide Reachable, RegsOk, JobsOk, ApiOk;
  }

  /** Whatever order a scheduler picks, a drop begun outside a callback runs to its end. */
  lemma {:induction false} ShutdownTerminates<S(!new), M(!new)>(c: Config<S, M>, choose: State<S, M> -> Step<S>,
                                                                s: State<S, M>)
    requires Reachable(c, s) && s.stopped && !s.inside && Schedules(c, choose)
    ensures exists n: nat :: DoneAfter(c, choose, s, n)
    decreases RankOf(c, s).samples, RankOf(c, s).offers, RankOf(c, s).queued, RankOf(c, s).dispatch,
              RankOf(c, s).phase, RankOf(c, s).held, RankOf(c, s).waiting
  {
    hide Reachable, Next, RankOf;
    if s.closing == Closed {
      assert DoneAfter(c, choose, s, 0);
    } else {
      var step := choose(s);
      var mid := Next(c, s, step).value;
      StepLowers(c, s, step, mid);
      StoppedIsClosing(c, s);
      InsideStays(c, s, step, mid);
      ReachableNext(c, s, step, mid);
      ShutdownTerminates(c, choose, mid);
      var m: nat :| DoneAfter(c, choose, mid, m);
      AfterCons(c, s, step, mid, ScheduledBy(c, choose, mid, m));
      hide After;
      assert DoneAfter(c, choose, s, m + 1);
    }
  }

  // ---------- Quiescence ----------

  /** `deactivate_all` has returned. */
  ghost predicate AllDeactivated<S, M>(s: State<S, M>) {
    s.closing == JoiningDispatcher || s.closing == Closed
  }

  /** Every registration ever created is then inactive and retired, and no token is left. */
  lemma DeactivatedAll<S(!new), M>(c: Config<S, M>, s: State<S, M>)
    requires Reachable(c, s) && AllDeactivated(s)
    ensures s.registry.active == {} && s.registry.entries == [] && s.registry.tokens == multiset{}
    ensures forall id: nat :: id in s.history.retired <==> id < |s.registry.keys|
    ensures s.dispatcher.InCallback? ==> s.dispatcher.task.Finished?
  {
    hide Reachable, Inv;
    InvReachable(c, s);
    NobodyHolds(c, s);
    AllRetired(s.registry, s.closing, s.history.retired, Holder(s.dispatcher));
  }

  lemma NobodyHolds<S, M>(c: Config<S, M>, s: State<S, M>)
    requires Inv(c, s) && AllDeactivated(s)
    ensures s.calls == map[] && s.registry.entries == [] && Held(s.closing) == [] && s.registry.InBounds()
    ensures TokensOk(s.registry, Holder(s.dispatcher))
    ensures AllOwned(s.registry, map[], s.closing, s.history.retired)
    ensures OwnersOk(s.registry, map[], s.closing, s.history.retired)
  {
    hide JobsOk, ApiOk, CallsOk, TokensOk, AllOwned, OwnersOk, Increasing;
  }

  /** With no other owner left, every generation is retired, and so inactive and idle. */
  lemma AllRetired(r: Registry, closing: Closing, retired: set<nat>, holder: Option<nat>)
    requires r.InBounds() && r.entries == [] && Held(closing) == [] && TokensOk(r, holder)
    requires AllOwned(r, map[], closing, retired) && OwnersOk(r, map[], closing, retired)
    ensures r.active == {} && r.tokens == multiset{} && holder.None?
    ensures forall id: nat :: id in retired <==> id < |r.keys|
  {
  }

  lemma QuietDispatcher<S, M>(s: State<S, M>, step: DispatcherStep)
    requires s.registry.active == {} && DispatcherNext(s, step).Some?
    ensures var t := DispatcherNext(s, step).value;
            t.closing == s.closing && t.history.started == s.history.started && t.history.offers == s.history.offers
  {
    hide Aborted;
  }

  lemma QuietNext<S, M>(c: Config<S, M>, s: State<S, M>, step: Step<S>, t: State<S, M>)
    requires AllDeactivated(s) && s.calls == map[] && s.registry.active == {} && s.poller.PollerExited?
    requires s.dispatcher.InCallback? ==> s.dispatcher.task.Finished?
    requires Next(c, s, step) == Some(t)
    ensures AllDeactivated(t) && t.history.started == s.history.started && t.history.offers == s.history.offers
  {
    hide DispatcherNext, Chosen, JobsFor, Accepted, Malformed, WakeCalls, WakeClosing;
    if step.Dispatch? {
      QuietDispatcher(s, step.dispatch);
    }
  }

  /** From then on, in every continuation, no callback begins: the jobs still queued are skipped. */
  lemma {:induction false} QuietForever<S(!new), M>(c: Config<S, M>, s: State<S, M>, steps: seq<Step<S>>,
                                                    t: State<S, M>)
    requires Reachable(c, s) && AllDeactivated(s) && After(c, s, steps) == Some(t)
    ensures AllDeactivated(t) && t.registry.active == {} && t.registry.tokens == multiset{}
    ensures t.history.started == s.history.started && t.history.offers == s.history.offers
    ensures RanJobs(t.history.processed) + CallbackJob(t.dispatcher)
            == RanJobs(s.history.processed) + CallbackJob(s.dispatcher)
    decreases steps
  {
    InvReachable(c, s);
    hide Reachable;
    DeactivatedAll(c, s);
    assert s.calls == map[] && s.poller.PollerExited? by {
      hide RegsOk, JobsOk, ApiOk;
    }
    StartsAreRuns(c, s);
    hide Next, Inv, AllDeactivated, RanJobs, CallbackJob, Reachable;
    if steps != [] {
      var mid := Next(c, s, steps[0]).value;
      QuietNext(c, s, steps[0], mid);
      ReachableNext(c, s, steps[0], mid);
      InvReachable(c, mid);
      StartsAreRuns(c, mid);
      QuietForever(c, mid, steps[1..], t);
    }
  }

  lemma StartsAreRuns<S, M>(c: Config<S, M>, s: State<S, M>)
    requires Inv(c, s)
    ensures s.history.started == RanJobs(s.history.processed) + CallbackJob(s.dispatcher)
  {
    hide ControlOk, RegsOk, ApiOk, OffersOk, QueueOk, DropsOk, PanicsOk, SnapshotsOk, MalformedOk;
  }

  lemma NoStepLeft<S, M>(c: Config<S, M>, s: State<S, M>, step: Step<S>)
    requires s.closing == Closed && s.calls == map[] && s.poller.PollerExited? && s.dispatcher.DispatcherExited?
    ensures Next(c, s, step).None?
  {
  }

  /** When the drop is done the queue is empty, every job sent has met its fate, and no step is left to anyone. */
  lemma ClosedIsFinal<S(!new), M>(c: Config<S, M>, s: State<S, M>, step: Step<S>)
    requires Reachable(c, s) && s.closing == Closed
    ensures s.queue == [] && s.dispatcher.DispatcherExited? && s.poller.PollerExited?
    ensures SentJobs(s.history.offers) == ProcessedJobs(s.history.processed)
    ensures s.history.started == s.history.released == RanJobs(s.history.processed)
    ensures Next(c, s, step).None?
  {
    InvReachable(c, s);
    hide Reachable, RegsOk, ApiOk, OffersOk, DropsOk, PanicsOk, SnapshotsOk, MalformedOk, WorkersOk, Next;
    NoStepLeft(c, s, step);
  }

  // ---------- A drop from inside a callback ----------

  /** A callback that drops the transport on its own task waits, in every continuation, for its own token. */
  lemma {:induction false} InsideNeverEnds<S(!new), M>(c: Config<S, M>, s: State<S, M>, steps: seq<Step<S>>,
                                                       t: State<S, M>)
    requires Reachable(c, s) && s.inside && After(c, s, steps) == Some(t)
    ensures t.inside && t.stopped && CallbackBody(t) && t.dispatcher.job.reg in t.registry.tokens && !AllDeactivated(t)
    decreases steps
  {
    InsideWaits(c, s);
    hide Next, Reachable, AllDeactivated, CallbackBody;
    if steps != [] {
      var mid := Next(c, s, steps[0]).value;
      StoppedIsClosing(c, s);
      InsideStays(c, s, steps[0], mid);
      ReachableNext(c, s, steps[0], mid);
      InsideNeverEnds(c, mid, steps[1..], t);
    }
  }

  lemma InsideWaits<S(!new), M>(c: Config<S, M>, s: State<S, M>)
    requires Reachable(c, s) && s.inside
    ensures s.stopped && CallbackBody(s) && s.dispatcher.job.reg in s.registry.tokens && !AllDeactivated(s)
  {
    if AllDeactivated(s) {
      DeactivatedAll(c, s);
    }
    InvReachable(c, s);
    hide Reachable, JobsOk, ApiOk, AllOwned, OwnersOk, CallsOk, ClosingOk;
  }

  /** Some schedule brings the drop to its end. */
  ghost predicate CanClose<S(!new), M(!new)>(c: Config<S, M>, s: State<S, M>) {
    exists steps: seq<Step<S>>, t: State<S, M> :: After(c, s, steps) == Some(t) && t.closing == Closed
  }

  /** A drop that has begun can be finished if and only if the callback whose token is out did not begin it itself. */
  lemma DropEndsIff<S(!new), M(!new)>(c: Config<S, M>, s: State<S, M>)
    requires Reachable(c, s) && s.stopped
    ensures CanClose(c, s) <==> !s.inside
  {
    hide Reachable, After, Next, Schedules;
    if s.inside {
      forall steps: seq<Step<S>>, t: State<S, M> | After(c, s, steps) == Some(t)
        ensures t.closing != Closed
      {
        InsideNeverEnds(c, s, steps, t);
      }
    } else {
      SchedulerExists(c);
      var choose: State<S, M> -> Step<S> :| Schedules(c, choose);
      ShutdownTerminates(c, choose, s);
      var n: nat :| DoneAfter(c, choose, s, n);
      assert After(c, s, ScheduledBy(c, choose, s, n)).Some?;
    }
  }

  // ---------- What can still begin after stop ----------

  /** A job of generation `id` waits in the queue or at `begin`. */
  ghost predicate JobWaits<S, M>(s: State<S, M>, id: nat) {
    || (s.dispatcher.Beginning? && s.dispatcher.job.reg == id)
    || exists i :: 0 <= i < |s.queue| && s.queue[i].reg == id
  }

  /** Some schedule begins one more callback of generation `id`. */
  ghost predicate CanBegin<S(!new), M(!new)>(c: Config<S, M>, s: State<S, M>, id: nat) {
    exists steps: seq<Step<S>>, t: State<S, M> ::
      After(c, s, steps) == Some(t) && CountReg(t.history.started, id) > CountReg(s.history.started, id)
  }

  ghost predicate Beginnable<S, M>(s: State<S, M>, id: nat) {
    id in s.registry.active && !s.inside && JobWaits(s, id)
  }

  /** The poller gone, no step makes a callback of `id` possible, and only the beginning of one uses it up. */
  lemma BeginnableNext<S, M>(c: Config<S, M>, s: State<S, M>, step: Step<S>, t: State<S, M>, id: nat)
    requires ControlOk(s) && s.closing != Open && s.poller.PollerExited? && Next(c, s, step) == Some(t)
    ensures t.closing != Open && t.poller.PollerExited? && t.inside == s.inside
    ensures !Beginnable(s, id) ==>
              !Beginnable(t, id) && CountReg(t.history.started, id) == CountReg(s.history.started, id)
  {
    hide ApiNext, PollerNext, TaskNext, CloseNext, CountReg;
    match step
    case Api(a) => NoCalls(s, a);
    case Poll(p) => PollerGone(c, s, p);
    case Dispatch(d) => BeginnableDispatch(s, d, id);
    case Run(k) => var u := TaskWrites(s, k); TaskStaysClosing(s, k);
    case Close(k) => var u := CloseWrites(s, k); CloserStaysClosing(s, k);
  }

  lemma NoCalls<S, M>(s: State<S, M>, step: ApiStep)
    requires s.calls == map[] && s.closing != Open
    ensures ApiNext(s, step).None?
  {
  }

  lemma PollerGone<S, M>(c: Config<S, M>, s: State<S, M>, step: PollerStep<S>)
    requires s.poller.PollerExited?
    ensures PollerNext(c, s, step).None?
  {
  }

  lemma TaskStaysClosing<S, M>(s: State<S, M>, step: TaskStep)
    requires s.closing != Open && TaskNext(s, step).Some?
    ensures TaskNext(s, step).value.closing != Open
  {
    hide WakeCalls;
  }

  lemma CloserStaysClosing<S, M>(s: State<S, M>, step: CloseStep)
    requires s.closing != Open && CloseNext(s, step).Some?
    ensures CloseNext(s, step).value.closing != Open
    ensures CloseNext(s, step).value.registry.active <= s.registry.active
  {
  }

  lemma BeginnableDispatch<S, M>(s: State<S, M>, step: DispatcherStep, id: nat)
    requires ControlOk(s) && DispatcherNext(s, step).Some?
    ensures var t := DispatcherNext(s, step).value;
            && t.closing == s.closing && t.poller == s.poller && t.inside == s.inside
            && (!Beginnable(s, id) ==>
                  !Beginnable(t, id) && CountReg(t.history.started, id) == CountReg(s.history.started, id))
  {
    var t := DispatcherWrites(s, step);
    if step == Begin {
      CountRegAppend(s.history.started, s.dispatcher.job);
    }
    hide CountReg, Aborted;
  }

  lemma {:induction false} NeverBegins<S(!new), M>(c: Config<S, M>, s: State<S, M>, steps: seq<Step<S>>, t: State<S, M>,
                                                   id: nat)
    requires Reachable(c, s) && s.closing != Open && s.poller.PollerExited? && !Beginnable(s, id)
    requires After(c, s, steps) == Some(t)
    ensures CountReg(t.history.started, id) == CountReg(s.history.started, id)
    decreases steps
  {
    hide Next, Reachable, Beginnable, CountReg;
    if steps != [] {
      var mid := Next(c, s, steps[0]).value;
      ControlReachable(c, s);
      BeginnableNext(c, s, steps[0], mid, id);
      ReachableNext(c, s, steps[0], mid);
      NeverBegins(c, mid, steps[1..], t, id);
    }
  }

  /** A step of the dispatcher leaves a waiting job waiting until it begins. */
  lemma JobWaitsOn<S, M>(s: State<S, M>, step: DispatcherStep, id: nat)
    requires JobWaits(s, id) && !(s.dispatcher.Beginning? && s.dispatcher.job.reg == id)
    requires DispatcherNext(s, step).Some?
    ensures var t := DispatcherNext(s, step).value;
            JobWaits(t, id) && CountReg(t.history.started, id) == CountReg(s.history.started, id)
  {
    var i :| 0 <= i < |s.queue| && s.queue[i].reg == id;
    if step == Begin {
      CountRegAppend(s.history.started, s.dispatcher.job);
    }
    if step == Receive && s.queue[0].reg != id {
      assert s.queue[1..][i - 1] == s.queue[i];
    }
    hide Aborted, CountReg;
  }

  /** So does whatever the dispatcher, or the task it waits for, does next. */
  lemma DispatcherServes<S, M>(c: Config<S, M>, s: State<S, M>, id: nat, t: State<S, M>)
    requires s.poller.PollerExited? && !s.dispatcher.DispatcherExited? && Beginnable(s, id)
    requires !(s.dispatcher.Beginning? && s.dispatcher.job.reg == id)
    requires Next(c, s, DispatcherMove(s)) == Some(t)
    ensures Beginnable(t, id) && t.poller == s.poller
    ensures CountReg(t.history.started, id) == CountReg(s.history.started, id)
  {
    hide CountReg, ApiNext, PollerNext, DispatcherNext, TaskNext, CloseNext;
    match DispatcherMove(s)
    case Dispatch(d) => var u := DispatcherWrites(s, d); JobWaitsOn(s, d, id);
    case Run(k) => var u := TaskWrites(s, k);
  }

  /** The dispatcher alone brings the waiting job to its beginning. */
  lemma {:induction false} ServesUpTo<S(!new), M>(c: Config<S, M>, s: State<S, M>, id: nat)
    returns (steps: seq<Step<S>>, t: State<S, M>)
    requires Reachable(c, s) && s.stopped && s.poller.PollerExited? && Beginnable(s, id)
    ensures After(c, s, steps) == Some(t) && CountReg(t.history.started, id) > CountReg(s.history.started, id)
    decreases RankOf(c, s).samples, RankOf(c, s).offers, RankOf(c, s).queued, RankOf(c, s).dispatch,
              RankOf(c, s).phase, RankOf(c, s).held, RankOf(c, s).waiting
  {
    DispatcherReady(c, s, id);
    DispatcherCanStep(c, s);
    var step := DispatcherMove(s);
    var mid := Next(c, s, step).value;
    AfterOne(c, s, step, mid);
    StepLowers(c, s, step, mid);
    ReachableNext(c, s, step, mid);
    if s.dispatcher.Beginning? && s.dispatcher.job.reg == id {
      hide After, Reachable, RankOf, StagesLeft;
      CountRegAppend(s.history.started, s.dispatcher.job);
      steps, t := [step], mid;
    } else {
      hide Next, DispatcherMove;
      DispatcherServes(c, s, id, mid);
      hide Beginnable, RankOf, Reachable, CountReg;
      var rest;
      rest, t := ServesUpTo(c, mid, id);
      AfterCons(c, s, step, mid, rest);
      steps := [step] + rest;
    }
  }

  lemma DispatcherReady<S(!new), M>(c: Config<S, M>, s: State<S, M>, id: nat)
    requires Reachable(c, s) && s.stopped && Beginnable(s, id)
    ensures !s.dispatcher.DispatcherExited? && !CallbackBusy(s)
  {
    ControlReachable(c, s);
    hide Reachable;
  }

  /**
   Once the poller has left after stop, one more callback of a registration can begin if and only if the registration
   is not deactivated yet, a job of it is queued or at `begin`, and the drop was not begun inside a callback.
   */
  lemma BeginsAfterStopIff<S(!new), M(!new)>(c: Config<S, M>, s: State<S, M>, id: nat)
    requires Reachable(c, s) && s.stopped && s.poller.PollerExited?
    ensures CanBegin(c, s, id) <==> id in s.registry.active && !s.inside && JobWaits(s, id)
  {
    hide Reachable, After, JobWaits, CountReg;
    if Beginnable(s, id) {
      var steps, t := ServesUpTo(c, s, id);
    } else {
      StoppedIsClosing(c, s);
      forall steps: seq<Step<S>>, t: State<S, M> | After(c, s, steps) == Some(t)
        ensures CountReg(t.history.started, id) == CountReg(s.history.started, id)
      {
        NeverBegins(c, s, steps, t, id);
      }
    }
  }
}
