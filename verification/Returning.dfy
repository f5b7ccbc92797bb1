/**
 A pending `unregister` returns: how far it is from its return, which steps bring it nearer, and why every
 fair run takes them all.
 */
module Returning {
  import opened Wrappers
  import opened RegistryModel
  import opened Protocol
  import opened Safety
  import opened Delivery
  import opened Linearization
  import opened Invariant
  import opened Unregistering

  // ---------- How far a call is from its return ----------

  function StagesLeft(task: Task): nat {
    match task
    case Spawned(_) => 3
    case Running(_) => 2
    case Dropping(_) => 1
    case Finished(_) => 0
  }

  /** The next step of a task that is neither finished nor inside the transport's code. */
  function TaskMove(task: Task): TaskStep {
    match task
    case Spawned(aborted) => if aborted then Cancel else Start
    case Running(_) => End(false)
    case _ => ReleaseToken
  }

  lemma TaskMovesOn<S, M>(s: State<S, M>)
    requires s.dispatcher.InCallback? && !s.dispatcher.task.Finished? && !CallbackBusy(s)
    ensures TaskNext(s, TaskMove(s.dispatcher.task)).Some?
  {
    hide WakeCalls, WakeClosing;
  }

  /** What is left of the callback that owns the token of generation `id`: its stages, and its own pending call. */
  ghost function TokenRank<S, M>(s: State<S, M>, id: nat): nat {
    if Holder(s.dispatcher) == Some(id) then 2 * StagesLeft(s.dispatcher.task) + Bit(CALLBACK in s.calls) else 0
  }

  /** How far the pending call of `thread` is from its return. */
  ghost function WaitRank<S, M>(s: State<S, M>, thread: nat): nat
    requires thread in s.calls
  {
    match s.calls[thread]
    case Removed(_) => 9
    case Parked(id) => TokenRank(s, id)
    case Woken(id) => TokenRank(s, id) + 1
  }

  /** The call of `thread`, on generation `id`, is pending, and is not the callback's own of its own registration. */
  ghost predicate Pending<S, M>(s: State<S, M>, thread: nat, id: nat) {
    thread in s.calls && s.calls[thread].reg == id && !(thread == CALLBACK && SelfUnregister(s))
  }

  /** A step of the caller, of the callback it waits for, or of that callback's own pending call. */
  ghost predicate Useful<S, M>(s: State<S, M>, thread: nat, step: Step<S>) {
    thread in s.calls &&
    if s.calls[thread].Removed? then step == Api(Deactivate(thread))
    else
      || step == Api(Recheck(thread))
      || (Holder(s.dispatcher) == Some(s.calls[thread].reg)
          && (step.Run? || step == Api(Deactivate(CALLBACK)) || step == Api(Recheck(CALLBACK))))
  }

  /** A spurious wake-up of the caller, or one more call made by the callback it waits for. */
  ghost predicate Excused<S, M>(s: State<S, M>, thread: nat, step: Step<S>) {
    thread in s.calls && step.Api? &&
    match step.api
    case SpuriousWake(woken) => woken == thread
    case Unregister(caller, _) => caller == CALLBACK && Holder(s.dispatcher) == Some(s.calls[thread].reg)
    case _ => false
  }

  /** What a pending call can rely on. */
  ghost predicate CallsReady<S, M>(s: State<S, M>) {
    && CallsOk(s.registry, s.calls)
    && TokensOk(s.registry, Holder(s.dispatcher))
    && (s.calls != map[] ==> s.closing == Open && !s.inside)
    && (CALLBACK in s.calls ==> CallbackBody(s))
  }

  lemma CallsAreReady<S, M>(c: Config<S, M>, s: State<S, M>)
    requires Inv(c, s)
    ensures CallsReady(s)
  {
    hide JobsOk, ApiOk, AllOwned, OwnersOk, ClosingOk, CallsOk;
  }

  /** The call has returned after the step, or is pending and no further from its return than `rank`. */
  ghost predicate WaitsWithin<S, M>(t: State<S, M>, thread: nat, id: nat, rank: nat) {
    id in t.history.retired || (Pending(t, thread, id) && WaitRank(t, thread) <= rank)
  }

  /** The caller itself: it returns, or it parks for a token that lives. */
  lemma WaitOwnStep<S, M>(s: State<S, M>, step: ApiStep, thread: nat, id: nat)
    requires CallsReady(s) && Pending(s, thread, id) && ApiNext(s, step).Some?
    requires step == Deactivate(thread) || step == Recheck(thread)
    ensures WaitsWithin(ApiNext(s, step).value, thread, id, WaitRank(s, thread) - 1)
  {
    hide CallsOk, TokensOk;
  }

  /** Another caller: only the callback's own call counts. */
  lemma WaitOtherCall<S, M>(s: State<S, M>, step: ApiStep, thread: nat, id: nat)
    requires CallsReady(s) && Pending(s, thread, id) && ApiNext(s, step).Some?
    requires step != Deactivate(thread) && step != Recheck(thread)
    ensures WaitsWithin(ApiNext(s, step).value, thread, id, WaitRank(s, thread) + Bit(Excused(s, thread, Api(step))))
  {
    hide CallsOk, TokensOk, Registry.Find;
  }

  /** The callback it waits for returns from its own call at once. */
  lemma WaitCallback<S, M>(s: State<S, M>, step: ApiStep, thread: nat, id: nat)
    requires CallsReady(s) && Pending(s, thread, id) && ApiNext(s, step).Some? && thread != CALLBACK
    requires step == Deactivate(CALLBACK) || step == Recheck(CALLBACK)
    requires !s.calls[thread].Removed? && Holder(s.dispatcher) == Some(id)
    ensures WaitsWithin(ApiNext(s, step).value, thread, id, WaitRank(s, thread) - 1)
  {
    assert s.calls[CALLBACK].reg !in s.registry.tokens;
    hide CallsOk, TokensOk;
  }

  lemma WaitApi<S, M>(s: State<S, M>, step: ApiStep, thread: nat, id: nat)
    requires CallsReady(s) && Pending(s, thread, id) && ApiNext(s, step).Some?
    ensures WaitsWithin(ApiNext(s, step).value, thread, id, WaitRank(s, thread) + Bit(Excused(s, thread, Api(step))))
    ensures Useful(s, thread, Api(step)) ==>
              WaitsWithin(ApiNext(s, step).value, thread, id, WaitRank(s, thread) - 1)
  {
    hide CallsReady, ApiNext, WaitRank;
    if step == Deactivate(thread) || step == Recheck(thread) {
      WaitOwnStep(s, step, thread, id);
    } else {
      WaitOtherCall(s, step, thread, id);
      if Useful(s, thread, Api(step)) {
        WaitCallback(s, step, thread, id);
      }
    }
  }

  lemma WaitPoller<S, M>(c: Config<S, M>, s: State<S, M>, step: PollerStep<S>, thread: nat, id: nat)
    requires Pending(s, thread, id) && PollerNext(c, s, step).Some?
    ensures WaitsWithin(PollerNext(c, s, step).value, thread, id, WaitRank(s, thread))
  {
    var t := PollerWrites(c, s, step);
    hide PollerNext;
  }

  /** The dispatcher hands out no token of an inactive registration, and takes none back. */
  lemma DispatcherHolder<S, M>(s: State<S, M>, step: DispatcherStep, id: nat)
    requires id !in s.registry.active && DispatcherNext(s, step).Some?
    ensures var t := DispatcherNext(s, step).value;
            && (Holder(t.dispatcher) == Some(id) <==> Holder(s.dispatcher) == Some(id))
            && (Holder(t.dispatcher) == Some(id) ==>
                  t.dispatcher.InCallback? && s.dispatcher.InCallback?
                  && StagesLeft(t.dispatcher.task) == StagesLeft(s.dispatcher.task))
  {
  }

  /** Nor does it end the callback that is inside a call. */
  lemma DispatcherSpares<S, M>(s: State<S, M>, step: DispatcherStep)
    requires CallbackBody(s) && DispatcherNext(s, step).Some?
    ensures var t := DispatcherNext(s, step).value; CallbackBody(t) && t.dispatcher.job == s.dispatcher.job
  {
  }

  lemma WaitDispatcher<S, M>(s: State<S, M>, step: DispatcherStep, thread: nat, id: nat)
    requires CallsReady(s) && Pending(s, thread, id) && DispatcherNext(s, step).Some?
    ensures WaitsWithin(DispatcherNext(s, step).value, thread, id, WaitRank(s, thread))
  {
    var t := DispatcherWrites(s, step);
    if CALLBACK in s.calls {
      DispatcherSpares(s, step);
    }
    if !s.calls[thread].Removed? {
      DispatcherHolder(s, step, id);
    }
    hide DispatcherNext, TokensOk, Holder;
  }

  lemma WaitRelease<S, M>(s: State<S, M>, thread: nat, id: nat)
    requires CallsReady(s) && Pending(s, thread, id) && DoRelease(s).Some?
    ensures WaitsWithin(DoRelease(s).value, thread, id, WaitRank(s, thread))
    ensures Holder(s.dispatcher) == Some(id) && !s.calls[thread].Removed? ==>
              WaitsWithin(DoRelease(s).value, thread, id, WaitRank(s, thread) - 1)
  {
    hide CallsOk, TokensOk, WakeClosing;
  }

  lemma WaitTask<S, M>(s: State<S, M>, step: TaskStep, thread: nat, id: nat)
    requires CallsReady(s) && Pending(s, thread, id) && TaskNext(s, step).Some?
    ensures WaitsWithin(TaskNext(s, step).value, thread, id, WaitRank(s, thread))
    ensures Useful(s, thread, Run(step)) ==> WaitsWithin(TaskNext(s, step).value, thread, id, WaitRank(s, thread) - 1)
  {
    hide CallsOk, TokensOk, WakeClosing;
    if step == ReleaseToken {
      WaitRelease(s, thread, id);
    } else {
      hide DoRelease;
    }
  }

  lemma NoClosing<S, M>(s: State<S, M>, step: CloseStep)
    requires s.closing == Open && s.calls != map[]
    ensures CloseNext(s, step).None?
  {
  }

  /** No step but an excused one moves a pending call away from its return, and every useful one brings it nearer. */
  lemma WaitNext<S, M>(c: Config<S, M>, s: State<S, M>, step: Step<S>, t: State<S, M>, thread: nat, id: nat)
    requires CallsReady(s) && Pending(s, thread, id) && Next(c, s, step) == Some(t)
    ensures WaitsWithin(t, thread, id, WaitRank(s, thread) + Bit(Excused(s, thread, step)))
    ensures Useful(s, thread, step) ==> WaitsWithin(t, thread, id, WaitRank(s, thread) - 1)
  {
    assert s.closing == Open && s.calls != map[];
    hide CallsReady, Pending, WaitsWithin, WaitRank, ApiNext, PollerNext, DispatcherNext, TaskNext, CloseNext, Holder;
    match step
    case Api(a) => WaitApi(s, a, thread, id);
    case Poll(p) => WaitPoller(c, s, p, thread, id);
    case Dispatch(d) => WaitDispatcher(s, d, thread, id);
    case Run(k) => WaitTask(s, k, thread, id);
    case Close(k) => NoClosing(s, k);
  }

  /** The callback whose token a caller waits for can go on, or return from a call of its own. */
  lemma HolderStep<S, M>(s: State<S, M>, thread: nat, id: nat) returns (step: Step<S>)
    requires CallsReady(s) && Pending(s, thread, id) && s.calls[thread].Parked?
    ensures step == (if CALLBACK !in s.calls then Run(TaskMove(s.dispatcher.task))
                     else if s.calls[CALLBACK].Removed? then Api(Deactivate(CALLBACK)) else Api(Recheck(CALLBACK)))
    ensures Holder(s.dispatcher) == Some(id)
    ensures CALLBACK in s.calls ==> !s.calls[CALLBACK].Parked?
  {
    step := if CALLBACK !in s.calls then Run(TaskMove(s.dispatcher.task))
            else if s.calls[CALLBACK].Removed? then Api(Deactivate(CALLBACK)) else Api(Recheck(CALLBACK));
  }

  /** A useful step can be taken for as long as the call is pending. */
  lemma UsefulStep<S, M>(c: Config<S, M>, s: State<S, M>, thread: nat, id: nat) returns (step: Step<S>)
    requires CallsReady(s) && Pending(s, thread, id)
    ensures Useful(s, thread, step) && Next(c, s, step).Some?
  {
    if s.calls[thread].Parked? {
      step := HolderStep(s, thread, id);
      hide CallsOk, TokensOk;
      if CALLBACK !in s.calls {
        TaskMovesOn(s);
      }
    } else {
      hide CallsReady;
      step := Api(if s.calls[thread].Removed? then Deactivate(thread) else Recheck(thread));
    }
  }

  /** Some schedule of at most ten steps lets it return. */
  lemma {:induction false} PendingCanReturn<S, M>(c: Config<S, M>, s: State<S, M>, thread: nat, id: nat)
    returns (steps: seq<Step<S>>, t: State<S, M>)
    requires Inv(c, s) && Pending(s, thread, id)
    ensures After(c, s, steps) == Some(t) && id in t.history.retired && |steps| <= WaitRank(s, thread) + 1
    decreases WaitRank(s, thread)
  {
    hide Inv, CallsReady, Next, WaitRank, Useful, Pending, After;
    CallsAreReady(c, s);
    var step := UsefulStep(c, s, thread, id);
    var mid := Next(c, s, step).value;
    WaitNext(c, s, step, mid, thread, id);
    InvNext(c, s, step, mid);
    if id in mid.history.retired {
      AfterOne(c, s, step, mid);
      steps, t := [step], mid;
    } else {
      var rest;
      rest, t := PendingCanReturn(c, mid, thread, id);
      AfterCons(c, s, step, mid, rest);
      steps := [step] + rest;
    }
  }

  /** Some schedule lets the call of `thread` return. */
  ghost predicate CanReturn<S(!new), M(!new)>(c: Config<S, M>, s: State<S, M>, thread: nat)
    requires thread in s.calls
  {
    exists steps: seq<Step<S>>, t: State<S, M> ::
      After(c, s, steps) == Some(t) && s.calls[thread].reg in t.history.retired
  }

  /** A pending `unregister` can return if and only if it is not the running callback's own of its own registration. */
  lemma UnregisterReturnsIff<S(!new), M(!new)>(c: Config<S, M>, s: State<S, M>, thread: nat)
    requires Reachable(c, s) && thread in s.calls
    ensures CanReturn(c, s, thread) <==> !(thread == CALLBACK && SelfUnregister(s))
  {
    InvReachable(c, s);
    if thread == CALLBACK && SelfUnregister(s) {
      forall steps: seq<Step<S>>, t: State<S, M> | After(c, s, steps) == Some(t)
        ensures s.calls[thread].reg !in t.history.retired
      {
        SelfUnregisterNeverReturns(c, s, steps, t);
        OwnCallPending(c, s, steps, t);
      }
    } else {
      var steps, t := PendingCanReturn(c, s, thread, s.calls[thread].reg);
    }
  }

  lemma OwnCallPending<S(!new), M>(c: Config<S, M>, s: State<S, M>, steps: seq<Step<S>>, t: State<S, M>)
    requires Reachable(c, s) && After(c, s, steps) == Some(t)
    requires SelfUnregister(s) && SelfUnregister(t) && t.dispatcher.job == s.dispatcher.job
    ensures s.calls[CALLBACK].reg !in t.history.retired
  {
    ReachableAfter(c, s, steps, t);
    InvReachable(c, t);
    hide Reachable, After, JobsOk, ApiOk;
  }

  // ---------- Any schedule ----------

  ghost function UsefulSteps<S, M>(c: Config<S, M>, s: State<S, M>, thread: nat, steps: seq<Step<S>>): nat
    decreases steps
  {
    if steps == [] || Next(c, s, steps[0]).None? then 0
    else Bit(Useful(s, thread, steps[0])) + UsefulSteps(c, Next(c, s, steps[0]).value, thread, steps[1..])
  }

  ghost function ExcusedSteps<S, M>(c: Config<S, M>, s: State<S, M>, thread: nat, steps: seq<Step<S>>): nat
    decreases steps
  {
    if steps == [] || Next(c, s, steps[0]).None? then 0
    else Bit(Excused(s, thread, steps[0])) + ExcusedSteps(c, Next(c, s, steps[0]).value, thread, steps[1..])
  }

  lemma RetiredIsDead<S, M>(c: Config<S, M>, s: State<S, M>, id: nat)
    requires Inv(c, s) && id in s.history.retired
    ensures id < |s.registry.keys| && id !in s.registry.active
  {
    hide ControlOk, JobsOk, ApiOk, AllOwned, CallsOk, ClosingOk;
  }

  /**
   As long as a call has not returned, whatever anybody does, the useful steps taken are at most its rank (nine
   or less) plus the number of excused ones.
   */
  lemma {:induction false} UsefulStepsBounded<S(!new), M>(c: Config<S, M>, s: State<S, M>, thread: nat, id: nat,
                                                          steps: seq<Step<S>>, t: State<S, M>)
    requires Reachable(c, s) && Pending(s, thread, id) && After(c, s, steps) == Some(t) && id !in t.history.retired
    ensures Pending(t, thread, id)
    ensures UsefulSteps(c, s, thread, steps) + WaitRank(t, thread)
            <= WaitRank(s, thread) + ExcusedSteps(c, s, thread, steps)
    ensures WaitRank(s, thread) <= 9
    decreases steps
  {
    AtMostNine(s, thread);
    hide Inv, CallsReady, Next, Pending, Useful, Excused, WaitRank, Reachable;
    if steps != [] {
      var mid := Next(c, s, steps[0]).value;
      InvReachable(c, s);
      CallsAreReady(c, s);
      WaitNext(c, s, steps[0], mid, thread, id);
      ReachableNext(c, s, steps[0], mid);
      if id in mid.history.retired {
        InvReachable(c, mid);
        RetiredIsDead(c, mid, id);
        DeadForever(c, mid, steps[1..], t, id);
      } else {
        UsefulStepsBounded(c, mid, thread, id, steps[1..], t);
      }
    }
  }

  lemma AtMostNine<S, M>(s: State<S, M>, thread: nat)
    requires thread in s.calls
    ensures WaitRank(s, thread) <= 9
  {
  }

  // ---------- Endless runs ----------

  /** The state and the step at each moment of a run that never stops. */
  ghost predicate Endless<S(!new), M>(c: Config<S, M>, run: nat -> State<S, M>, chosen: nat -> Step<S>) {
    Reachable(c, run(0)) && forall i: nat :: Next(c, run(i), chosen(i)) == Some(run(i + 1))
  }

  /** At moment `i` the call has returned, or a useful step is taken. */
  ghost predicate Served<S, M>(run: nat -> State<S, M>, chosen: nat -> Step<S>, thread: nat, id: nat, i: nat) {
    id in run(i).history.retired || Useful(run(i), thread, chosen(i))
  }

  ghost predicate ServedFrom<S, M>(run: nat -> State<S, M>, chosen: nat -> Step<S>, thread: nat, id: nat, i: nat) {
    exists j: nat :: i <= j && Served(run, chosen, thread, id, j)
  }

  /** Useful steps are taken again and again until the call has returned. */
  ghost predicate Fair<S, M>(run: nat -> State<S, M>, chosen: nat -> Step<S>, thread: nat, id: nat) {
    forall i: nat :: ServedFrom(run, chosen, thread, id, i)
  }

  /** From moment `i` on nothing has to be excused. */
  ghost predicate Calm<S, M>(run: nat -> State<S, M>, chosen: nat -> Step<S>, thread: nat, i: nat) {
    forall j: nat :: i <= j ==> !Excused(run(j), thread, chosen(j))
  }

  lemma {:induction false} EndlessInv<S(!new), M>(c: Config<S, M>, run: nat -> State<S, M>, chosen: nat -> Step<S>,
                                                  i: nat)
    requires Endless(c, run, chosen)
    ensures Inv(c, run(i))
  {
    hide Inv, Next, Reachable;
    if i == 0 {
      InvReachable(c, run(0));
    } else {
      EndlessInv(c, run, chosen, i - 1);
      InvNext(c, run(i - 1), chosen(i - 1), run(i));
    }
  }

  /** A pending call returns by moment `j` or is still pending then, no further from its return in calm times. */
  lemma {:induction false} RunsTo<S(!new), M>(c: Config<S, M>, run: nat -> State<S, M>, chosen: nat -> Step<S>,
                                              thread: nat, id: nat, i: nat, j: nat) returns (k: nat)
    requires Endless(c, run, chosen) && i <= j && Pending(run(i), thread, id)
    ensures k <= j
    ensures id in run(k).history.retired
            || (k == j && Pending(run(j), thread, id)
                && (Calm(run, chosen, thread, i) ==> WaitRank(run(j), thread) <= WaitRank(run(i), thread)))
    decreases j - i
  {
    k := i;
    if i < j && id !in run(i).history.retired {
      EndlessInv(c, run, chosen, i);
      hide Inv, CallsReady, Reachable;
      CallsAreReady(c, run(i));
      assert Next(c, run(i), chosen(i)) == Some(run(i + 1));
      hide Next, Pending, WaitRank, Excused, Useful;
      WaitNext(c, run(i), chosen(i), run(i + 1), thread, id);
      k := i + 1;
      if id !in run(i + 1).history.retired {
        k := RunsTo(c, run, chosen, thread, id, i + 1, j);
      }
    }
  }

  lemma {:induction false} ReturnsFrom<S(!new), M>(c: Config<S, M>, run: nat -> State<S, M>, chosen: nat -> Step<S>,
                                                   thread: nat, id: nat, i: nat) returns (n: nat)
    requires Endless(c, run, chosen) && Fair(run, chosen, thread, id) && Calm(run, chosen, thread, i)
    requires Pending(run(i), thread, id)
    ensures id in run(n).history.retired
    decreases WaitRank(run(i), thread)
  {
    assert ServedFrom(run, chosen, thread, id, i);
    var j: nat :| i <= j && Served(run, chosen, thread, id, j);
    n := RunsTo(c, run, chosen, thread, id, i, j);
    if id !in run(n).history.retired {
      EndlessInv(c, run, chosen, j);
      hide Inv, CallsReady, Reachable;
      CallsAreReady(c, run(j));
      assert Next(c, run(j), chosen(j)) == Some(run(j + 1));
      hide Next, Pending, WaitRank, Excused, Useful;
      WaitNext(c, run(j), chosen(j), run(j + 1), thread, id);
      n := j + 1;
      if id !in run(n).history.retired {
        n := ReturnsFrom(c, run, chosen, thread, id, j + 1);
      }
    }
  }

  // ---------- Weak fairness ----------

  /** Who may have to move for a call to return: its caller, the running callback inside a call of its own, the task. */
  datatype Who = TheCaller | OwnCall | TheTask

  /** It can take a step. */
  ghost predicate Able<S, M>(s: State<S, M>, who: Who, thread: nat) {
    match who
    case TheCaller => DoDeactivate(s, thread).Some? || DoRecheck(s, thread).Some?
    case OwnCall => DoDeactivate(s, CALLBACK).Some? || DoRecheck(s, CALLBACK).Some?
    case TheTask => exists k: TaskStep :: TaskNext(s, k).Some?
  }

  /** The step is one of its. */
  ghost predicate Takes<S>(who: Who, thread: nat, step: Step<S>) {
    match who
    case TheCaller => step == Api(Deactivate(thread)) || step == Api(Recheck(thread))
    case OwnCall => step == Api(Deactivate(CALLBACK)) || step == Api(Recheck(CALLBACK))
    case TheTask => step.Run?
  }

  /** At moment `i` the call has returned, or `who` cannot move, or `who` moves. */
  ghost predicate Attended<S, M>(run: nat -> State<S, M>, chosen: nat -> Step<S>, thread: nat, id: nat, who: Who,
                                 i: nat)
  {
    id in run(i).history.retired || !Able(run(i), who, thread) || Takes(who, thread, chosen(i))
  }

  ghost predicate AttendedFrom<S, M>(run: nat -> State<S, M>, chosen: nat -> Step<S>, thread: nat, id: nat, who: Who,
                                     i: nat)
  {
    exists j: nat :: i <= j && Attended(run, chosen, thread, id, who, j)
  }

  /** Until the call has returned, none of the three stays able to move for ever without moving. */
  ghost predicate WeaklyFair<S, M>(run: nat -> State<S, M>, chosen: nat -> Step<S>, thread: nat, id: nat) {
    forall who: Who, i: nat :: AttendedFrom(run, chosen, thread, id, who, i)
  }

  /** The one whose move a pending call needs. */
  ghost function WhoseTurn<S, M>(s: State<S, M>, thread: nat): Who
    requires thread in s.calls
  {
    if !s.calls[thread].Parked? then TheCaller else if CALLBACK in s.calls then OwnCall else TheTask
  }

  lemma TurnIsAble<S, M>(c: Config<S, M>, s: State<S, M>, thread: nat, id: nat)
    requires CallsReady(s) && Pending(s, thread, id)
    ensures Able(s, WhoseTurn(s, thread), thread)
  {
    if s.calls[thread].Parked? {
      var step := HolderStep(s, thread, id);
      hide CallsOk, TokensOk;
      if CALLBACK !in s.calls {
        TaskMovesOn(s);
      }
    }
  }

  lemma TurnIsUseful<S, M>(c: Config<S, M>, s: State<S, M>, thread: nat, id: nat, step: Step<S>)
    requires CallsReady(s) && Pending(s, thread, id) && Next(c, s, step).Some?
    requires Takes(WhoseTurn(s, thread), thread, step)
    ensures Useful(s, thread, step)
  {
    hide TaskNext, PollerNext, DispatcherNext, CloseNext;
    if s.calls[thread].Parked? {
      var move := HolderStep(s, thread, id);
      hide CallsOk, TokensOk;
    }
  }

  lemma TurnByApi<S, M>(s: State<S, M>, step: ApiStep, thread: nat, id: nat)
    requires CallsReady(s) && Pending(s, thread, id) && ApiNext(s, step).Some?
    requires !Useful(s, thread, Api(step)) && !Excused(s, thread, Api(step))
    requires Pending(ApiNext(s, step).value, thread, id)
    ensures WhoseTurn(ApiNext(s, step).value, thread) == WhoseTurn(s, thread)
  {
    hide CallsReady, Registry.Find;
    if s.calls[thread].Parked? {
      var move := HolderStep(s, thread, id);
    }
  }

  lemma TurnByTask<S, M>(s: State<S, M>, step: TaskStep, thread: nat, id: nat)
    requires CallsReady(s) && Pending(s, thread, id) && TaskNext(s, step).Some? && !Useful(s, thread, Run(step))
    ensures thread in TaskNext(s, step).value.calls
    ensures WhoseTurn(TaskNext(s, step).value, thread) == WhoseTurn(s, thread)
  {
    hide CallsReady, WakeClosing;
    if s.calls[thread].Parked? {
      var move := HolderStep(s, thread, id);
    }
  }

  /** Only a useful or an excused step passes the turn on. */
  lemma TurnStays<S, M>(c: Config<S, M>, s: State<S, M>, step: Step<S>, t: State<S, M>, thread: nat, id: nat)
    requires CallsReady(s) && Pending(s, thread, id) && Next(c, s, step) == Some(t) && Pending(t, thread, id)
    requires !Useful(s, thread, step) && !Excused(s, thread, step)
    ensures WhoseTurn(t, thread) == WhoseTurn(s, thread)
  {
    assert s.closing == Open && s.calls != map[];
    hide CallsReady, Useful, Excused, ApiNext, PollerNext, DispatcherNext, TaskNext, CloseNext;
    match step
    case Api(a) => TurnByApi(s, a, thread, id);
    case Poll(p) => var u := PollerWrites(c, s, p);
    case Dispatch(d) => var u := DispatcherWrites(s, d);
    case Run(k) => TurnByTask(s, k, thread, id);
    case Close(k) => NoClosing(s, k);
  }

  /** Whose turn it is at moment `i` keeps it until a useful step is taken, at moment `j` at the latest. */
  lemma {:induction false} ServedBy<S(!new), M>(c: Config<S, M>, run: nat -> State<S, M>, chosen: nat -> Step<S>,
                                                thread: nat, id: nat, i: nat, j: nat) returns (k: nat)
    requires Endless(c, run, chosen) && Calm(run, chosen, thread, i) && i <= j && Pending(run(i), thread, id)
    requires Attended(run, chosen, thread, id, WhoseTurn(run(i), thread), j)
    ensures i <= k && Served(run, chosen, thread, id, k)
    decreases j - i
  {
    k := i;
    if !Served(run, chosen, thread, id, i) {
      EndlessInv(c, run, chosen, i);
      hide Inv, CallsReady, Reachable;
      CallsAreReady(c, run(i));
      assert Next(c, run(i), chosen(i)) == Some(run(i + 1));
      hide Next, Pending, WaitRank, Excused, Useful, WhoseTurn, Able, Takes;
      if i == j {
        TurnIsAble(c, run(i), thread, id);
        TurnIsUseful(c, run(i), thread, id, chosen(i));
      } else {
        WaitNext(c, run(i), chosen(i), run(i + 1), thread, id);
        k := i + 1;
        if id !in run(i + 1).history.retired {
          TurnStays(c, run(i), chosen(i), run(i + 1), thread, id);
          k := ServedBy(c, run, chosen, thread, id, i + 1, j);
        }
      }
    }
  }

  lemma {:induction false} RetiredAlong<S(!new), M>(c: Config<S, M>, run: nat -> State<S, M>, chosen: nat -> Step<S>,
                                                    id: nat, i: nat, j: nat)
    requires Endless(c, run, chosen) && i <= j && id in run(i).history.retired
    ensures id in run(j).history.retired
    decreases j - i
  {
    if i < j {
      EndlessInv(c, run, chosen, i);
      hide Inv, Reachable;
      RetiredIsDead(c, run(i), id);
      assert Next(c, run(i), chosen(i)) == Some(run(i + 1));
      hide Next;
      DeadNext(c, run(i), chosen(i), run(i + 1), id);
      RetiredAlong(c, run, chosen, id, i + 1, j);
    }
  }

  /** Weak fairness is enough: in calm times it makes useful steps come again and again. */
  lemma FairFromWeak<S(!new), M>(c: Config<S, M>, run: nat -> State<S, M>, chosen: nat -> Step<S>,
                                 thread: nat, id: nat, calm: nat)
    requires Endless(c, run, chosen) && WeaklyFair(run, chosen, thread, id) && Calm(run, chosen, thread, calm)
    requires Pending(run(0), thread, id)
    ensures Fair(run, chosen, thread, id)
  {
    forall i: nat
      ensures ServedFrom(run, chosen, thread, id, i)
    {
      var m: nat := if i < calm then calm else i;
      hide Endless, Pending, Useful, Attended;
      var k := RunsTo(c, run, chosen, thread, id, 0, m);
      if id in run(k).history.retired {
        RetiredAlong(c, run, chosen, id, k, m);
        k := m;
        assert Served(run, chosen, thread, id, k);
      } else {
        var who := TurnOf(run(m), thread, id);
        assert AttendedFrom(run, chosen, thread, id, who, m);
        var j: nat :| m <= j && Attended(run, chosen, thread, id, who, j);
        k := ServedBy(c, run, chosen, thread, id, m, j);
      }
      assert i <= k && Served(run, chosen, thread, id, k);
    }
  }

  lemma TurnOf<S, M>(s: State<S, M>, thread: nat, id: nat) returns (who: Who)
    requires Pending(s, thread, id)
    ensures thread in s.calls && who == WhoseTurn(s, thread)
  {
    who := WhoseTurn(s, thread);
  }

  /**
   In every weakly fair run a pending `unregister` returns, unless it is the running callback's own of its own
   registration: its caller, the task and the callback's own call are not held up for ever, the callback it waits
   for makes finitely many calls of its own, and the caller is woken for nothing finitely often.
   */
  lemma UnregisterReturns<S(!new), M>(c: Config<S, M>, run: nat -> State<S, M>, chosen: nat -> Step<S>,
                                      thread: nat, id: nat, calm: nat) returns (n: nat)
    requires Endless(c, run, chosen) && WeaklyFair(run, chosen, thread, id) && Calm(run, chosen, thread, calm)
    requires thread in run(0).calls && run(0).calls[thread].reg == id
    requires !(thread == CALLBACK && SelfUnregister(run(0)))
    ensures id in run(n).history.retired
  {
    assert Pending(run(0), thread, id);
    hide Endless, WeaklyFair, Pending;
    FairFromWeak(c, run, chosen, thread, id, calm);
    n := RunsTo(c, run, chosen, thread, id, 0, calm);
    if id !in run(n).history.retired {
      n := ReturnsFrom(c, run, chosen, thread, id, calm);
    }
  }

  // ---------- There is such a run ----------

  /** A step that can be taken, keeps the transport open, needs no excuse, and serves the call while it is pending. */
  ghost predicate Serving<S, M>(c: Config<S, M>, s: State<S, M>, thread: nat, id: nat, step: Step<S>) {
    && Next(c, s, step).Some? && Next(c, s, step).value.closing == Open && !Excused(s, thread, step)
    && (Pending(s, thread, id) ==> Useful(s, thread, step))
  }

  ghost predicate Serves<S(!new), M(!new)>(c: Config<S, M>, choose: State<S, M> -> Step<S>, thread: nat, id: nat) {
    forall s :: Inv(c, s) && s.closing == Open ==> Serving(c, s, thread, id, choose(s))
  }

  lemma UsefulIsQuiet<S, M>(c: Config<S, M>, s: State<S, M>, thread: nat, step: Step<S>)
    requires s.closing == Open && Useful(s, thread, step) && Next(c, s, step).Some?
    ensures Next(c, s, step).value.closing == Open && !Excused(s, thread, step)
  {
    hide ApiNext, TaskNext, PollerNext, DispatcherNext, CloseNext;
    match step
    case Api(a) => var t := ApiWrites(s, a);
    case Run(k) => TaskLeavesOpen(s, k);
  }

  lemma TaskLeavesOpen<S, M>(s: State<S, M>, step: TaskStep)
    requires s.closing == Open && TaskNext(s, step).Some?
    ensures TaskNext(s, step).value.closing == Open
  {
    hide WakeCalls;
  }

  lemma ServingStep<S, M>(c: Config<S, M>, s: State<S, M>, thread: nat, id: nat) returns (step: Step<S>)
    requires Inv(c, s) && s.closing == Open
    ensures Serving(c, s, thread, id, step)
  {
    hide Inv, CallsReady;
    if Pending(s, thread, id) {
      CallsAreReady(c, s);
      step := UsefulStep(c, s, thread, id);
      hide Next, Useful, Excused, Pending;
      UsefulIsQuiet(c, s, thread, step);
    } else {
      hide Pending, Useful;
      step := Api(Register(Key(UUri("", 0, 0, 0), None, 0)));
    }
  }

  ghost function Iterate<S, M>(c: Config<S, M>, choose: State<S, M> -> Step<S>, s: State<S, M>, n: nat): State<S, M> {
    if n == 0 then s
    else
      var t := Iterate(c, choose, s, n - 1);
      match Next(c, t, choose(t))
      case None => t
      case Some(u) => u
  }

  lemma {:induction false} IterateInv<S(!new), M(!new)>(c: Config<S, M>, choose: State<S, M> -> Step<S>, s: State<S, M>,
                                                        thread: nat, id: nat, n: nat)
    requires Serves(c, choose, thread, id) && Inv(c, s) && s.closing == Open
    ensures Inv(c, Iterate(c, choose, s, n)) && Iterate(c, choose, s, n).closing == Open
  {
    hide Inv, Next, Excused, Pending, Useful;
    if n > 0 {
      var t := Iterate(c, choose, s, n - 1);
      IterateInv(c, choose, s, thread, id, n - 1);
      InvNext(c, t, choose(t), Next(c, t, choose(t)).value);
    }
  }

  /** Along it the call is pending until it has returned. */
  lemma {:induction false} IterateServes<S(!new), M(!new)>(c: Config<S, M>, choose: State<S, M> -> Step<S>,
                                                           s: State<S, M>, thread: nat, id: nat, n: nat)
    requires Serves(c, choose, thread, id) && Inv(c, s) && s.closing == Open && Pending(s, thread, id)
    ensures var t := Iterate(c, choose, s, n); id in t.history.retired || Pending(t, thread, id)
  {
    hide Inv, Next, Excused, Pending, Useful, CallsReady, WaitRank;
    if n > 0 {
      var t := Iterate(c, choose, s, n - 1);
      IterateInv(c, choose, s, thread, id, n - 1);
      IterateServes(c, choose, s, thread, id, n - 1);
      var u := Next(c, t, choose(t)).value;
      if id in t.history.retired {
        RetiredIsDead(c, t, id);
        DeadNext(c, t, choose(t), u, id);
      } else {
        CallsAreReady(c, t);
        WaitNext(c, t, choose(t), u, thread, id);
      }
    }
  }

  lemma IterateNext<S(!new), M(!new)>(c: Config<S, M>, choose: State<S, M> -> Step<S>, s: State<S, M>,
                                      thread: nat, id: nat, n: nat)
    requires Serves(c, choose, thread, id) && Inv(c, s) && s.closing == Open && Pending(s, thread, id)
    ensures var t := Iterate(c, choose, s, n);
            && Next(c, t, choose(t)) == Some(Iterate(c, choose, s, n + 1)) && !Excused(t, thread, choose(t))
            && (id in t.history.retired || Useful(t, thread, choose(t)))
  {
    hide Inv, Next, Excused, Pending, Useful;
    IterateInv(c, choose, s, thread, id, n);
    IterateServes(c, choose, s, thread, id, n);
  }

  lemma ServingScheduler<S(!new), M(!new)>(c: Config<S, M>, thread: nat, id: nat)
    returns (choose: State<S, M> -> Step<S>)
    ensures Serves(c, choose, thread, id)
  {
    hide Inv, Serving;
    forall s: State<S, M> | Inv(c, s) && s.closing == Open
      ensures exists step: Step<S> :: Serving(c, s, thread, id, step)
    {
      var step := ServingStep(c, s, thread, id);
    }
    choose := (s: State<S, M>) =>
      if Inv(c, s) && s.closing == Open then var step: Step<S> :| Serving(c, s, thread, id, step); step else Poll(Wake);
  }

  /** From every state in which a call is pending there is an endless run as `UnregisterReturns` asks for. */
  lemma FairRunExists<S(!new), M(!new)>(c: Config<S, M>, s: State<S, M>, thread: nat, id: nat)
    returns (run: nat -> State<S, M>, chosen: nat -> Step<S>)
    requires Reachable(c, s) && s.closing == Open && Pending(s, thread, id)
    ensures run(0) == s && Endless(c, run, chosen) && Calm(run, chosen, thread, 0)
    ensures WeaklyFair(run, chosen, thread, id)
  {
    hide Inv, Next, Excused, Pending, Useful, Reachable, Serves;
    InvReachable(c, s);
    var choose := ServingScheduler(c, thread, id);
    run := (n: nat) => Iterate(c, choose, s, n);
    chosen := (n: nat) => choose(Iterate(c, choose, s, n));
    assert run(0) == s;
    hide Iterate;
    forall i: nat
      ensures Next(c, run(i), chosen(i)) == Some(run(i + 1)) && !Excused(run(i), thread, chosen(i))
      ensures ServedFrom(run, chosen, thread, id, i)
    {
      IterateNext(c, choose, s, thread, id, i);
      assert Served(run, chosen, thread, id, i);
    }
    hide Fair, Endless, Calm, Served;
    var n := ReturnsFrom(c, run, chosen, thread, id, 0);
    WeakOnceReturned(c, run, chosen, thread, id, n);
  }

  lemma WeakOnceReturned<S(!new), M>(c: Config<S, M>, run: nat -> State<S, M>, chosen: nat -> Step<S>,
                                     thread: nat, id: nat, n: nat)
    requires Endless(c, run, chosen) && id in run(n).history.retired
    ensures WeaklyFair(run, chosen, thread, id)
  {
    forall who: Who, i: nat
      ensures AttendedFrom(run, chosen, thread, id, who, i)
    {
      var j: nat := if i < n then n else i;
      RetiredAlong(c, run, chosen, id, n, j);
      hide Able, Endless;
      assert Attended(run, chosen, thread, id, who, j);
    }
  }
}
