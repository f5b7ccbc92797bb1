/**
 What `unregister` promises over whole runs: no callback after it returns, none begun while it waits,
 no wait without something to wait for, and no way to hit another generation.
 */
module Unregistering {
  import opened Wrappers
  import opened RegistryModel
  import opened Protocol
  import opened Safety
  import opened Delivery
  import opened Linearization
  import opened Invariant

  ghost function CountReg<M>(jobs: seq<Job<M>>, reg: nat): nat {
    if jobs == [] then 0 else CountReg(jobs[..|jobs| - 1], reg) + Bit(jobs[|jobs| - 1].reg == reg)
  }

  lemma CountRegAppend<M>(jobs: seq<Job<M>>, job: Job<M>)
    ensures forall reg :: CountReg(jobs + [job], reg) == CountReg(jobs, reg) + Bit(job.reg == reg)
  {
    assert (jobs + [job])[..|jobs|] == jobs;
  }

  // ---------- A deactivated registration is dead ----------

  /** What a step may do to a generation that is inactive: nothing but give its token back. */
  ghost predicate DeadStays<S, M>(s: State<S, M>, t: State<S, M>, id: nat) {
    && |s.registry.keys| <= |t.registry.keys|
    && id !in t.registry.active
    && CountReg(t.history.started, id) == CountReg(s.history.started, id)
    && (id in s.history.retired ==> id in t.history.retired)
  }

  lemma DeadByApi<S, M>(s: State<S, M>, step: ApiStep, id: nat)
    requires id < |s.registry.keys| && id !in s.registry.active && ApiNext(s, step).Some?
    ensures DeadStays(s, ApiNext(s, step).value, id)
  {
    hide CountReg;
  }

  lemma DeadByPoller<S, M>(c: Config<S, M>, s: State<S, M>, step: PollerStep<S>, id: nat)
    requires id !in s.registry.active && PollerNext(c, s, step).Some?
    ensures DeadStays(s, PollerNext(c, s, step).value, id)
  {
    var t := PollerWrites(c, s, step);
    hide CountReg, PollerNext;
  }

  lemma DeadByDispatcher<S, M>(s: State<S, M>, step: DispatcherStep, id: nat)
    requires id !in s.registry.active && DispatcherNext(s, step).Some?
    ensures DeadStays(s, DispatcherNext(s, step).value, id)
  {
    if step == Begin {
      CountRegAppend(s.history.started, s.dispatcher.job);
    }
    hide CountReg, Aborted;
  }

  lemma DeadByTask<S, M>(s: State<S, M>, step: TaskStep, id: nat)
    requires id !in s.registry.active && TaskNext(s, step).Some?
    ensures DeadStays(s, TaskNext(s, step).value, id)
  {
    var t := TaskWrites(s, step);
    hide CountReg, TaskNext;
  }

  lemma DeadByClosing<S, M>(s: State<S, M>, step: CloseStep, id: nat)
    requires id !in s.registry.active && CloseNext(s, step).Some?
    ensures DeadStays(s, CloseNext(s, step).value, id)
  {
    hide CountReg;
  }

  lemma DeadNext<S, M>(c: Config<S, M>, s: State<S, M>, step: Step<S>, t: State<S, M>, id: nat)
    requires id < |s.registry.keys| && id !in s.registry.active && Next(c, s, step) == Some(t)
    ensures DeadStays(s, t, id)
  {
    hide DeadStays, ApiNext, PollerNext, DispatcherNext, TaskNext, CloseNext;
    match step
    case Api(a) => DeadByApi(s, a, id);
    case Poll(p) => DeadByPoller(c, s, p, id);
    case Dispatch(d) => DeadByDispatcher(s, d, id);
    case Run(k) => DeadByTask(s, k, id);
    case Close(k) => DeadByClosing(s, k, id);
  }

  /** From the moment a registration is inactive, no schedule activates it or begins a callback of it. */
  lemma {:induction false} DeadForever<S, M>(c: Config<S, M>, s: State<S, M>, steps: seq<Step<S>>, t: State<S, M>,
                                             id: nat)
    requires id < |s.registry.keys| && id !in s.registry.active && After(c, s, steps) == Some(t)
    ensures DeadStays(s, t, id)
    decreases steps
  {
    hide Next;
    if steps != [] {
      var mid := Next(c, s, steps[0]).value;
      DeadNext(c, s, steps[0], mid, id);
      DeadForever(c, mid, steps[1..], t, id);
    }
  }

  /**
   Once `unregister` has returned Ok for a registration, in every continuation its in-flight count is
   zero, none of its callbacks runs, none ever begins, and it is never registered again, whatever the
   poller's snapshot and the queue still hold.
   */
  lemma UnregisterSafety<S(!new), M>(c: Config<S, M>, s: State<S, M>, steps: seq<Step<S>>, t: State<S, M>, id: nat)
    requires Reachable(c, s) && id in s.history.retired && After(c, s, steps) == Some(t)
    ensures id !in t.registry.tokens && id !in t.registry.active && id !in t.registry.entries
    ensures t.dispatcher.InCallback? && t.dispatcher.job.reg == id ==> t.dispatcher.task.Finished?
    ensures CountReg(t.history.started, id) == CountReg(s.history.started, id)
  {
    InvReachable(c, s);
    hide Reachable;
    DeadForever(c, s, steps, t, id);
    InvAfter(c, s, steps, t);
  }

  /** No other step takes a pending call away. */
  lemma OthersStay<S, M>(s: State<S, M>, step: ApiStep, thread: nat)
    requires thread in s.calls && ApiNext(s, step).Some?
    requires step != Deactivate(thread) && step != Recheck(thread)
    ensures thread in ApiNext(s, step).value.calls
  {
    hide Registry.Find, Registry.Insert, Registry.RemoveAt;
  }

  /** The call that returns is the one that retires: the guarantee starts at the return. */
  lemma ReturnRetires<S(!new), M>(c: Config<S, M>, s: State<S, M>, step: ApiStep, t: State<S, M>, thread: nat)
    requires Reachable(c, s) && ApiNext(s, step) == Some(t)
    requires thread in s.calls && thread !in t.calls
    ensures step == Deactivate(thread) || step == Recheck(thread)
    ensures s.calls[thread].reg in t.history.retired && s.calls[thread].reg !in s.history.retired
  {
    InvReachable(c, s);
    assert s.calls[thread].reg !in s.history.retired;
    hide Inv, Reachable, DoRegister, DoUnregister, DoSpuriousWake;
    if step != Deactivate(thread) && step != Recheck(thread) {
      OthersStay(s, step, thread);
    }
  }

  // ---------- Waiting ----------

  /** A thread parked in `deactivate_and_wait` waits for a token that the running callback still owns. */
  lemma NoLostWakeup<S(!new), M>(c: Config<S, M>, s: State<S, M>, id: nat)
    requires Reachable(c, s)
    requires (exists thread :: thread in s.calls && s.calls[thread] == Parked(id))
             || (s.closing.CloseParked? && s.closing.rest != [] && s.closing.rest[0] == id)
    ensures id !in s.registry.active && s.registry.tokens == multiset{id}
    ensures s.dispatcher.InCallback? && s.dispatcher.job.reg == id && !s.dispatcher.task.Finished?
  {
    InvReachable(c, s);
    hide Reachable;
    hide JobsOk, ApiOk, Registry.Valid, AllOwned, OwnersOk;
  }

  ghost predicate OwnsToken<S, M>(s: State<S, M>, id: nat) {
    Holder(s.dispatcher) == Some(id)
  }

  /** Callbacks of one registration that have begun are those over plus the one that owns its token. */
  lemma BegunAndOver<S, M>(c: Config<S, M>, s: State<S, M>, id: nat)
    requires JobsOk(c, s)
    ensures CountReg(s.history.started, id) == CountReg(s.history.released, id) + Bit(OwnsToken(s, id))
  {
    if s.dispatcher.InCallback? && !s.dispatcher.task.Finished? {
      CountRegAppend(s.history.released, s.dispatcher.job);
    } else {
      assert s.history.released + [] == s.history.released;
    }
  }

  /** Between deactivation and return no callback begins, and at most the one under way finishes. */
  lemma AtMostOneFinishes<S(!new), M>(c: Config<S, M>, s: State<S, M>, steps: seq<Step<S>>, t: State<S, M>, id: nat)
    requires Reachable(c, s) && id < |s.registry.keys| && id !in s.registry.active && After(c, s, steps) == Some(t)
    ensures CountReg(t.history.started, id) == CountReg(s.history.started, id)
    ensures CountReg(t.history.released, id) + Bit(OwnsToken(t, id))
            == CountReg(s.history.released, id) + Bit(OwnsToken(s, id))
  {
    InvReachable(c, s);
    hide Reachable;
    DeadForever(c, s, steps, t, id);
    InvAfter(c, s, steps, t);
    BegunAndOver(c, s, id);
    BegunAndOver(c, t, id);
  }

  // ---------- Generations ----------

  /** A generation taken out of `entries` is never listed again. */
  ghost predicate GoneStays<S, M>(s: State<S, M>, t: State<S, M>, id: nat) {
    |s.registry.keys| <= |t.registry.keys| && s.registry.keys <= t.registry.keys && id !in t.registry.entries
  }

  lemma GoneNext<S, M>(c: Config<S, M>, s: State<S, M>, step: Step<S>, t: State<S, M>, id: nat)
    requires id < |s.registry.keys| && id !in s.registry.entries && Next(c, s, step) == Some(t)
    ensures GoneStays(s, t, id)
  {
    hide PollerNext, DispatcherNext, TaskNext;
    if step.Api? && (step.api.Register? || step.api.Unregister?) {
    } else if step == Close(TakeEntries) {
    } else {
      KeepsEntries(c, s, step, t);
    }
  }

  lemma {:induction false} GoneForever<S, M>(c: Config<S, M>, s: State<S, M>, steps: seq<Step<S>>, t: State<S, M>,
                                             id: nat)
    requires id < |s.registry.keys| && id !in s.registry.entries && After(c, s, steps) == Some(t)
    ensures GoneStays(s, t, id)
    decreases steps
  {
    hide Next;
    if steps != [] {
      var mid := Next(c, s, steps[0]).value;
      GoneNext(c, s, steps[0], mid, id);
      GoneForever(c, mid, steps[1..], t, id);
    }
  }

  /** How many owners a generation has: the registry, a caller, the dropping thread, or none any more. */
  lemma OneOwner<S(!new), M>(c: Config<S, M>, s: State<S, M>, id: nat)
    requires Reachable(c, s) && id < |s.registry.keys|
    ensures Bit(id in s.registry.entries) + Bit(OwnedByCall(s.calls, id))
            + Bit(id in Held(s.closing)) + Bit(id in s.history.retired) == 1
    ensures forall t, u :: t in s.calls && u in s.calls && s.calls[t].reg == id && s.calls[u].reg == id ==> t == u
  {
    InvReachable(c, s);
    hide Reachable;
    hide JobsOk, ApiOk;
  }

  /** Generation `id` carries `key`, and is active while it is listed. */
  ghost predicate LivesUntilRemoved<S, M>(s: State<S, M>, id: nat, key: Key) {
    && id < |s.registry.keys| && s.registry.keys[id] == key
    && (id in s.registry.entries ==> id in s.registry.active)
    && (id !in s.registry.entries ==> OwnedByCall(s.calls, id) || id in Held(s.closing) || id in s.history.retired)
  }

  lemma ListedIsActive<S, M>(c: Config<S, M>, s: State<S, M>, id: nat)
    requires Inv(c, s) && id < |s.registry.keys|
    ensures LivesUntilRemoved(s, id, s.registry.keys[id])
  {
    hide JobsOk, ApiOk;
  }

  /**
   A `register` that succeeds while removals are under way, of the same key or of others, creates a
   generation none of them owns; in every continuation it is active for as long as it is listed, and
   leaves the list only by being taken out itself.
   */
  lemma FreshGeneration<S(!new), M>(c: Config<S, M>, s: State<S, M>, key: Key, t: State<S, M>, steps: seq<Step<S>>,
                                    u: State<S, M>)
    requires Reachable(c, s) && DoRegister(s, key) == Some(t) && s.registry.Find(key).None?
    requires After(c, t, steps) == Some(u)
    ensures |s.registry.keys| in t.registry.entries && !OwnedByCall(t.calls, |s.registry.keys|)
            && |s.registry.keys| !in t.history.retired
    ensures LivesUntilRemoved(u, |s.registry.keys|, key)
  {
    InvReachable(c, s);
    hide Reachable;
    var id := |s.registry.keys|;
    assert s.registry.Valid();
    InsertRefines(s.registry, key);
    assert t.registry == s.registry.Insert(key);
    hide Inv, After, Registry.Valid, LivesUntilRemoved, Reachable;
    assert Next(c, s, Api(Register(key))) == Some(t);
    ReachableNext(c, s, Api(Register(key)), t);
    ReachableAfter(c, t, steps, u);
    InvReachable(c, u);
    OneOwner(c, t, id);
    KeysGrow(c, t, steps, u);
    ListedIsActive(c, u, id);
  }

  lemma {:induction false} KeysGrow<S, M>(c: Config<S, M>, s: State<S, M>, steps: seq<Step<S>>, t: State<S, M>)
    requires After(c, s, steps) == Some(t)
    ensures s.registry.keys <= t.registry.keys
    decreases steps
  {
    hide Next;
    if steps != [] {
      var mid := Next(c, s, steps[0]).value;
      KeysGrowNext(c, s, steps[0], mid);
      KeysGrow(c, mid, steps[1..], t);
    }
  }

  lemma KeysGrowNext<S, M>(c: Config<S, M>, s: State<S, M>, step: Step<S>, t: State<S, M>)
    requires Next(c, s, step) == Some(t)
    ensures s.registry.keys <= t.registry.keys
  {
    hide PollerNext, DispatcherNext, TaskNext;
    if step.Api? && (step.api.Register? || step.api.Unregister?) {
    } else if step == Close(TakeEntries) {
    } else {
      KeepsEntries(c, s, step, t);
    }
  }

  // ---------- Calls from inside the callback ----------

  /**
   An `unregister` issued by the running callback returns at once exactly when its target is another
   registration than the one running.
   */
  lemma ReentrantUnregister<S(!new), M>(c: Config<S, M>, s: State<S, M>)
    requires Reachable(c, s) && CALLBACK in s.calls && s.calls[CALLBACK].Removed?
    ensures DoDeactivate(s, CALLBACK).Some? && s.dispatcher.InCallback?
    ensures CALLBACK !in DoDeactivate(s, CALLBACK).value.calls <==> s.calls[CALLBACK].reg != s.dispatcher.job.reg
  {
    InvReachable(c, s);
    hide Reachable;
    hide JobsOk, ApiOk, AllOwned, OwnersOk;
  }

  /** The running callback is inside `unregister` of its own registration. */
  ghost predicate SelfUnregister<S, M>(s: State<S, M>) {
    && s.closing == Open && s.dispatcher.InCallback? && s.dispatcher.task.Running?
    && CALLBACK in s.calls && s.calls[CALLBACK].reg == s.dispatcher.job.reg
  }

  lemma SelfWaitApi<S, M>(s: State<S, M>, step: ApiStep)
    requires SelfUnregister(s) && s.dispatcher.job.reg in s.registry.tokens && ApiNext(s, step).Some?
    ensures SelfUnregister(ApiNext(s, step).value) && ApiNext(s, step).value.dispatcher == s.dispatcher
  {
  }

  lemma SelfWaitPoller<S, M>(c: Config<S, M>, s: State<S, M>, step: PollerStep<S>)
    requires SelfUnregister(s) && PollerNext(c, s, step).Some?
    ensures SelfUnregister(PollerNext(c, s, step).value) && PollerNext(c, s, step).value.dispatcher == s.dispatcher
  {
    var t := PollerWrites(c, s, step);
    hide PollerNext;
  }

  lemma SelfWaitNext<S, M>(c: Config<S, M>, s: State<S, M>, step: Step<S>, t: State<S, M>)
    requires SelfUnregister(s) && s.dispatcher.job.reg in s.registry.tokens && Next(c, s, step) == Some(t)
    ensures SelfUnregister(t) && t.dispatcher.job == s.dispatcher.job
  {
    hide ApiNext, PollerNext;
    match step
    case Api(a) => SelfWaitApi(s, a);
    case Poll(p) => SelfWaitPoller(c, s, p);
    case _ =>
  }

  /**
   An `unregister` of its own registration from inside a callback never returns: in every continuation
   the callback is still waiting for the token it owns itself, and the transport cannot be dropped.
   */
  lemma {:induction false} SelfUnregisterNeverReturns<S(!new), M>(c: Config<S, M>, s: State<S, M>,
                                                                  steps: seq<Step<S>>, t: State<S, M>)
    requires Reachable(c, s) && SelfUnregister(s) && After(c, s, steps) == Some(t)
    ensures SelfUnregister(t) && t.dispatcher.job == s.dispatcher.job && !t.stopped
    decreases steps
  {
    InvReachable(c, s);
    hide Reachable;
    assert s.registry.tokens == multiset{s.dispatcher.job.reg} && !s.stopped by {
      hide JobsOk, ApiOk, AllOwned, OwnersOk, CallsOk, ClosingOk;
    }
    hide Next, Inv, Reachable;
    if steps != [] {
      var mid := Next(c, s, steps[0]).value;
      SelfWaitNext(c, s, steps[0], mid);
      ReachableNext(c, s, steps[0], mid);
      SelfUnregisterNeverReturns(c, mid, steps[1..], t);
    }
  }
}
