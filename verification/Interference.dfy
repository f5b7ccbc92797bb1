/**
 Threads among threads: which steps are whose, what the others leave alone, and the log of one thread's steps
 and of the turns it gives to the others.
 */
module Interference {
  import opened Wrappers
  import opened RegistryModel
  import opened Protocol
  import opened Safety
  import opened Invariant
  import opened Shutdown

  datatype Actor = PollerThread | DispatcherThread | DroppingThread | CallerThread(thread: nat)

  /** The steps that only this thread takes; a spurious wake-up is nobody's. */
  predicate Owns<S>(actor: Actor, step: Step<S>) {
    match actor
    case PollerThread => step.Poll?
    case DispatcherThread => step.Dispatch?
    case DroppingThread => step.Close? && !step.close.SpuriousNext?
    case CallerThread(thread) =>
      step.Api? &&
      match step.api
      case Unregister(caller, _) => caller == thread
      case Deactivate(caller) => caller == thread
      case Recheck(caller) => caller == thread
      case _ => false
  }

  // ---------- What the others leave alone ----------

  /** The task may go on, and jobs may arrive; where the dispatcher stands is its own business. */
  ghost predicate DispatcherKept<S, M>(s: State<S, M>, t: State<S, M>) {
    && (if s.dispatcher.InCallback?
        then t.dispatcher.InCallback? && t.dispatcher == s.dispatcher.(task := t.dispatcher.task)
             && (s.dispatcher.task.Finished? ==> t.dispatcher.task == s.dispatcher.task)
        else t.dispatcher == s.dispatcher)
    && t.history.processed == s.history.processed && t.history.reported == s.history.reported
    && s.queue <= t.queue && (s.stopped ==> t.stopped)
    && (s.poller.PollerExited? ==> t.poller == s.poller && t.queue == s.queue)
  }

  /** Nobody but the poller moves the poller, takes samples or offers jobs. */
  ghost predicate PollerKept<S, M>(s: State<S, M>, t: State<S, M>) {
    && t.poller == s.poller && t.history.taken == s.history.taken && t.history.examined == s.history.examined
    && t.history.snapshots == s.history.snapshots && t.history.offers == s.history.offers
    && t.history.failedTakes == s.history.failedTakes && (s.stopped ==> t.stopped)
  }

  /** The dropping thread may be woken; for those it joins there is no way back. */
  ghost predicate DroppingKept<S, M>(s: State<S, M>, t: State<S, M>) {
    && (t.closing == s.closing || (s.closing.CloseParked? && t.closing == CloseWoken(s.closing.rest)))
    && (s.poller.PollerExited? ==> t.poller == s.poller)
    && (s.dispatcher.DispatcherExited? ==> t.dispatcher == s.dispatcher)
    && t.stopped == s.stopped && t.inside == s.inside && t.registry.entries == s.registry.entries
  }

  /** A caller may be woken. */
  ghost predicate CallerKept<S, M>(s: State<S, M>, t: State<S, M>, thread: nat) {
    && s.history.retired <= t.history.retired
    && if thread !in s.calls then thread !in t.calls
       else
         && thread in t.calls
         && (t.calls[thread] == s.calls[thread]
             || (s.calls[thread].Parked? && t.calls[thread] == Woken(s.calls[thread].reg)))
  }

  ghost predicate Kept<S, M>(actor: Actor, s: State<S, M>, t: State<S, M>) {
    match actor
    case PollerThread => PollerKept(s, t)
    case DispatcherThread => DispatcherKept(s, t)
    case DroppingThread => s.closing != Open ==> DroppingKept(s, t)
    case CallerThread(thread) => CallerKept(s, t, thread)
  }

  lemma KeptByPoller<S, M>(c: Config<S, M>, s: State<S, M>, step: PollerStep<S>, actor: Actor)
    requires PollerNext(c, s, step).Some? && !actor.PollerThread?
    ensures Kept(actor, s, PollerNext(c, s, step).value)
  {
    var t := PollerWrites(c, s, step);
    PollerAppends(c, s, step);
    hide PollerNext;
  }

  lemma PollerAppends<S, M>(c: Config<S, M>, s: State<S, M>, step: PollerStep<S>)
    requires PollerNext(c, s, step).Some?
    ensures s.queue <= PollerNext(c, s, step).value.queue && !s.poller.PollerExited?
  {
    hide Chosen, JobsFor, Accepted, Malformed;
  }

  lemma KeptByDispatcher<S, M>(s: State<S, M>, step: DispatcherStep, actor: Actor)
    requires DispatcherNext(s, step).Some? && !actor.DispatcherThread?
    ensures Kept(actor, s, DispatcherNext(s, step).value)
  {
    var t := DispatcherWrites(s, step);
    assert !s.dispatcher.DispatcherExited?;
    hide DispatcherNext;
  }

  lemma KeptByTask<S, M>(s: State<S, M>, step: TaskStep, actor: Actor)
    requires TaskNext(s, step).Some?
    ensures Kept(actor, s, TaskNext(s, step).value)
  {
    var t := TaskWrites(s, step);
    assert !s.dispatcher.task.Finished?;
  }

  lemma KeptByApi<S, M>(s: State<S, M>, step: ApiStep, actor: Actor)
    requires ControlOk(s) && ApiNext(s, step).Some? && !Owns<S>(actor, Api(step))
    ensures Kept(actor, s, ApiNext(s, step).value)
  {
    hide Registry.Find, Registry.Insert, Registry.RemoveAt;
  }

  lemma KeptByClosing<S, M>(s: State<S, M>, step: CloseStep, actor: Actor)
    requires ControlOk(s) && CloseNext(s, step).Some? && !Owns<S>(actor, Close(step))
    ensures Kept(actor, s, CloseNext(s, step).value)
  {
  }

  /** A step that is not the actor's own keeps what is the actor's. */
  lemma KeptNext<S, M>(c: Config<S, M>, s: State<S, M>, step: Step<S>, t: State<S, M>, actor: Actor)
    requires ControlOk(s) && !Owns(actor, step) && Next(c, s, step) == Some(t)
    ensures Kept(actor, s, t)
  {
    hide ControlOk, Kept, ApiNext, PollerNext, DispatcherNext, TaskNext, CloseNext;
    match step
    case Api(a) => KeptByApi(s, a, actor);
    case Poll(p) => KeptByPoller(c, s, p, actor);
    case Dispatch(d) => KeptByDispatcher(s, d, actor);
    case Run(k) => KeptByTask(s, k, actor);
    case Close(k) => KeptByClosing(s, k, actor);
  }

  lemma KeptOn<S, M>(actor: Actor, s: State<S, M>, t: State<S, M>, u: State<S, M>)
    requires Kept(actor, s, t) && Kept(actor, t, u)
    ensures Kept(actor, s, u)
  {
  }

  lemma KeptSelf<S, M>(actor: Actor, s: State<S, M>)
    ensures Kept(actor, s, s)
  {
  }

  // ---------- The turn of the others ----------

  /** The others try a step: it is taken if it is theirs and can be taken. */
  function Tried<S, M>(c: Config<S, M>, actor: Actor, s: State<S, M>, step: Step<S>): State<S, M> {
    if Owns(actor, step) then s
    else
      match Next(c, s, step)
      case None => s
      case Some(t) => t
  }

  /** The state after the others have tried all of `tries`, one after the other. */
  function Interfered<S, M>(c: Config<S, M>, actor: Actor, s: State<S, M>, tries: seq<Step<S>>): State<S, M>
    decreases |tries|
  {
    if |tries| == 0 then s else Interfered(c, actor, Tried(c, actor, s, tries[0]), tries[1..])
  }

  /** `t` is reached from `s` by steps none of which is the actor's. */
  ghost predicate ReachedByOthers<S(!new), M>(c: Config<S, M>, actor: Actor, s: State<S, M>, t: State<S, M>) {
    exists steps: seq<Step<S>> ::
      After(c, s, steps) == Some(t) && forall i :: 0 <= i < |steps| ==> !Owns(actor, steps[i])
  }

  /** The turn of the others is a run of their steps, and keeps what is the actor's. */
  lemma {:induction false} InterferedKeeps<S(!new), M>(c: Config<S, M>, actor: Actor, s: State<S, M>,
                                                       tries: seq<Step<S>>)
    requires Reachable(c, s)
    ensures ReachedByOthers(c, actor, s, Interfered(c, actor, s, tries))
    ensures Kept(actor, s, Interfered(c, actor, s, tries))
    decreases |tries|
  {
    hide Next, Reachable, Kept, Owns;
    if tries == [] {
      KeptSelf(actor, s);
      assert After(c, s, []) == Some(s);
    } else {
      var mid := Tried(c, actor, s, tries[0]);
      if mid == s {
        InterferedKeeps(c, actor, s, tries[1..]);
      } else {
        ReachableNext(c, s, tries[0], mid);
        InterferedKeeps(c, actor, mid, tries[1..]);
        var t := Interfered(c, actor, s, tries);
        var rest: seq<Step<S>> :|
          After(c, mid, rest) == Some(t) && forall i :: 0 <= i < |rest| ==> !Owns(actor, rest[i]);
        AfterCons(c, s, tries[0], mid, rest);
        ControlReachable(c, s);
        KeptNext(c, s, tries[0], mid, actor);
        KeptOn(actor, s, mid, t);
        assert forall i :: 0 <= i < |[tries[0]] + rest| ==> !Owns(actor, ([tries[0]] + rest)[i]);
      }
    }
  }

  /** Every run of steps of others is the turn of some tries: nothing the others could do is left out. */
  lemma {:induction false} InterferenceComplete<S, M>(c: Config<S, M>, actor: Actor, s: State<S, M>,
                                                      steps: seq<Step<S>>, t: State<S, M>)
    requires After(c, s, steps) == Some(t) && forall i :: 0 <= i < |steps| ==> !Owns(actor, steps[i])
    ensures Interfered(c, actor, s, steps) == t
    decreases |steps|
  {
    hide Next, Owns;
    if steps != [] {
      InterferenceComplete(c, actor, Next(c, s, steps[0]).value, steps[1..], t);
    }
  }

  /**
   Each step has one owner at most: the poller's, the dispatcher's and the dropping thread's steps one of these three,
   the steps of a call its caller; registrations, the task's steps and spurious wake-ups are nobody's.
   */
  lemma OneOwnerOfStep<S>(step: Step<S>, a: Actor, b: Actor)
    ensures Owns(a, step) && Owns(b, step) ==> a == b
    ensures (exists actor :: Owns(actor, step))
            <==> match step
                 case Poll(_) => true
                 case Dispatch(_) => true
                 case Run(_) => false
                 case Close(k) => k != SpuriousNext
                 case Api(api) => api.Unregister? || api.Deactivate? || api.Recheck?
  {
    match step
    case Poll(_) => assert Owns(PollerThread, step);
    case Dispatch(_) => assert Owns(DispatcherThread, step);
    case Run(_) =>
    case Close(k) => assert k != SpuriousNext ==> Owns(DroppingThread, step);
    case Api(api) =>
      if api.Unregister? || api.Deactivate? || api.Recheck? {
        assert Owns(CallerThread(api.thread), step);
      }
  }

  // ---------- The log of a thread ----------

  /**
   The actor has to wait here: for a job while its sender lives, for its task, for somebody to wake it, or for the
   thread it joins. The poller never waits for anybody.
   */
  ghost predicate MayWait<S, M>(actor: Actor, s: State<S, M>) {
    match actor
    case PollerThread => false
    case DispatcherThread =>
      if s.dispatcher.InCallback? then s.dispatcher.at.Joining? && !s.dispatcher.task.Finished?
      else s.dispatcher.Receiving? && s.queue == [] && !s.poller.PollerExited?
    case DroppingThread => Blocked(s)
    case CallerThread(thread) => thread in s.calls && s.calls[thread].Parked?
  }

  /** The actor took a step of its own, or only waited where it has to; after either the others had a turn. */
  datatype Event<S> = Did(actor: Actor, step: Step<S>) | Idle(actor: Actor)

  /**
   The state at the end of the log, if every step in it could be taken and every wait had to be. In the turn of
   number k the others try `others(k)`.
   */
  ghost function Told<S, M>(c: Config<S, M>, others: nat -> seq<Step<S>>, log: seq<Event<S>>): Option<State<S, M>> {
    if log == [] then Some(Init())
    else
      match Told(c, others, log[..|log| - 1])
      case None => None
      case Some(s) => Continued(c, others, s, |log| - 1, log[|log| - 1])
  }

  /** One more event, the one of number `k`. */
  ghost function Continued<S, M>(c: Config<S, M>, others: nat -> seq<Step<S>>, s: State<S, M>, k: nat,
                                 event: Event<S>): Option<State<S, M>>
  {
    match event
    case Idle(actor) => if MayWait(actor, s) then Some(Interfered(c, actor, s, others(k))) else None
    case Did(actor, step) =>
      match Next(c, s, step)
      case None => None
      case Some(t) => Some(Interfered(c, actor, t, others(k)))
  }

  lemma ToldSnoc<S, M>(c: Config<S, M>, others: nat -> seq<Step<S>>, log: seq<Event<S>>, s: State<S, M>,
                       event: Event<S>)
    requires Told(c, others, log) == Some(s)
    ensures Told(c, others, log + [event]) == Continued(c, others, s, |log|, event)
  {
    assert (log + [event])[..|log|] == log;
  }

  lemma ContinuedReaches<S(!new), M>(c: Config<S, M>, others: nat -> seq<Step<S>>, s: State<S, M>, k: nat,
                                     event: Event<S>, t: State<S, M>)
    requires Reachable(c, s) && Continued(c, others, s, k, event) == Some(t)
    ensures Reaches(c, s, t) && Reachable(c, t)
  {
    hide Next, Reachable, Kept, Owns;
    var mid, first: seq<Step<S>> := s, [];
    assert After(c, s, []) == Some(s);
    if event.Did? {
      mid, first := Next(c, s, event.step).value, [event.step];
      AfterOne(c, s, event.step, mid);
      ReachableNext(c, s, event.step, mid);
    }
    InterferedKeeps(c, event.actor, mid, others(k));
    hide Interfered;
    var rest: seq<Step<S>> :| After(c, mid, rest) == Some(t);
    AfterConcat(c, s, first, mid, rest);
    ReachableAfter(c, s, first + rest, t);
  }

  /** Whatever a log tells is a run of the protocol, and a longer log tells of a continuation. */
  lemma {:induction false} ToldReaches<S(!new), M>(c: Config<S, M>, others: nat -> seq<Step<S>>, log: seq<Event<S>>,
                                                   s: State<S, M>, later: seq<Event<S>>, t: State<S, M>)
    requires Told(c, others, log) == Some(s) && log <= later && Told(c, others, later) == Some(t) && Reachable(c, s)
    ensures Reaches(c, s, t) && Reachable(c, t)
    decreases |later|
  {
    hide Next, Reachable, Continued;
    if |later| == |log| {
      assert later == log;
      assert After(c, s, []) == Some(s);
    } else {
      var front := later[..|later| - 1];
      var mid := Told(c, others, front).value;
      ToldReaches(c, others, log, s, front, mid);
      ContinuedReaches(c, others, mid, |front|, later[|later| - 1], t);
      ReachesOn(c, s, mid, t);
    }
  }

  lemma ReachesOn<S(!new), M>(c: Config<S, M>, s: State<S, M>, mid: State<S, M>, t: State<S, M>)
    requires Reaches(c, s, mid) && Reaches(c, mid, t)
    ensures Reaches(c, s, t)
  {
    var first: seq<Step<S>> :| After(c, s, first) == Some(mid);
    var second: seq<Step<S>> :| After(c, mid, second) == Some(t);
    AfterConcat(c, s, first, mid, second);
    hide After;
  }

  lemma ToldReachable<S(!new), M>(c: Config<S, M>, others: nat -> seq<Step<S>>, log: seq<Event<S>>, s: State<S, M>)
    requires Told(c, others, log) == Some(s)
    ensures Reachable(c, s)
  {
    var none: seq<Event<S>> := [];
    var start: State<S, M> := Init();
    assert After(c, start, []) == Some(start);
    assert Reachable(c, start);
    hide After, Reachable;
    ToldReaches(c, others, none, start, log, s);
  }

  // ---------- Reading a log ----------

  /** Every event is of this actor: each step is one it owns, each turn of the others leaves out its steps. */
  ghost predicate By<S>(actor: Actor, events: seq<Event<S>>) {
    forall i :: 0 <= i < |events| ==> events[i].actor == actor && (events[i].Did? ==> Owns(actor, events[i].step))
  }

  /** The steps the thread itself took. */
  ghost function Steps<S>(events: seq<Event<S>>): seq<Step<S>> {
    if events == [] then []
    else Steps(events[..|events| - 1]) + (if events[|events| - 1].Did? then [events[|events| - 1].step] else [])
  }

  lemma {:induction false} StepsConcat<S>(a: seq<Event<S>>, b: seq<Event<S>>)
    ensures Steps(a + b) == Steps(a) + Steps(b)
  {
    if b == [] {
      assert a + b == a;
    } else {
      var front := b[..|b| - 1];
      StepsConcat(a, front);
      assert (a + b)[..|a + b| - 1] == a + front;
    }
  }

  /** The log has grown by events of this actor only. */
  ghost predicate Grown<S>(actor: Actor, before: seq<Event<S>>, after: seq<Event<S>>) {
    before <= after && By(actor, after[|before|..])
  }

  /** And its own steps among them are these. */
  ghost predicate Grew<S>(actor: Actor, before: seq<Event<S>>, after: seq<Event<S>>, own: seq<Step<S>>) {
    Grown(actor, before, after) && Steps(after[|before|..]) == own
  }

  lemma GrewNone<S>(actor: Actor, log: seq<Event<S>>)
    ensures Grew(actor, log, log, [])
  {
  }

  lemma GrewOne<S>(actor: Actor, log: seq<Event<S>>, event: Event<S>)
    requires event.actor == actor && (event.Did? ==> Owns(actor, event.step))
    ensures Grew(actor, log, log + [event], if event.Did? then [event.step] else [])
  {
    assert (log + [event])[|log|..] == [event];
    assert Steps([event]) == Steps<S>([]) + if event.Did? then [event.step] else [];
  }

  lemma GrewOn<S>(actor: Actor, a: seq<Event<S>>, b: seq<Event<S>>, d: seq<Event<S>>, x: seq<Step<S>>, y: seq<Step<S>>)
    requires Grew(actor, a, b, x) && Grew(actor, b, d, y)
    ensures Grew(actor, a, d, x + y)
  {
    assert d[|a|..] == b[|a|..] + d[|b|..];
    StepsConcat(b[|a|..], d[|b|..]);
    hide Steps, Owns;
  }

  lemma GrewTwo<S>(actor: Actor, a: seq<Event<S>>, b: seq<Event<S>>, d: seq<Event<S>>, x: Step<S>, y: Step<S>)
    requires Grew(actor, a, b, [x]) && Grew(actor, b, d, [y])
    ensures Grew(actor, a, d, [x, y])
  {
    hide Grew;
    GrewOn(actor, a, b, d, [x], [y]);
    assert [x] + [y] == [x, y];
  }

  lemma GrownOn<S>(actor: Actor, a: seq<Event<S>>, b: seq<Event<S>>, d: seq<Event<S>>)
    requires Grown(actor, a, b) && Grown(actor, b, d)
    ensures Grown(actor, a, d)
  {
    assert d[|a|..] == b[|a|..] + d[|b|..];
    hide Owns;
  }

  /** The same step `n` times. */
  ghost function Repeat<S>(step: Step<S>, n: nat): (steps: seq<Step<S>>)
    ensures |steps| == n && forall i :: 0 <= i < n ==> steps[i] == step
  {
    seq(n, _ => step)
  }

  lemma RepeatMore<S>(step: Step<S>, m: nat, n: nat)
    ensures Repeat(step, m) + Repeat(step, n) == Repeat(step, m + n)
    ensures Repeat(step, 1) == [step] && Repeat(step, 0) == []
  {
  }
}
