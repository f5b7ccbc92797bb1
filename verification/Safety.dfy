/**
 What every step of the protocol keeps: control flow, registrations and tokens.
 */
module Safety {
  import opened Wrappers
  import opened RegistryModel
  import opened Protocol

  // ---------- What an actor writes ----------

  /** The poller: its own place, the end of the queue, the health log and its own logs. */
  lemma PollerWrites<S, M>(c: Config<S, M>, s: State<S, M>, step: PollerStep<S>) returns (t: State<S, M>)
    requires PollerNext(c, s, step).Some?
    ensures t == PollerNext(c, s, step).value
    ensures t.registry == s.registry && t.calls == s.calls && t.dispatcher == s.dispatcher
    ensures t.closing == s.closing && t.stopped == s.stopped && t.inside == s.inside
    ensures t.history == s.history.(taken := t.history.taken, examined := t.history.examined,
                                    snapshots := t.history.snapshots, offers := t.history.offers,
                                    failedTakes := t.history.failedTakes)
  {
    t := PollerNext(c, s, step).value;
    hide DoSubmit, DoExamine;
    if step == Advance && s.poller.Batch? {
      AdvanceWrites(c, s);
    }
  }

  lemma AdvanceWrites<S, M>(c: Config<S, M>, s: State<S, M>)
    requires DoAdvance(c, s).Some?
    ensures var t := DoAdvance(c, s).value;
            && t == s.(poller := t.poller, queue := t.queue, health := t.health, history := t.history)
            && t.history == s.history.(examined := t.history.examined, snapshots := t.history.snapshots,
                                       offers := t.history.offers)
  {
    hide Chosen, JobsFor, Accepted, Malformed;
  }

  /** The dispatcher: the tokens, the head of the queue, its own place, the health log and its own logs. */
  lemma DispatcherWrites<S, M>(s: State<S, M>, step: DispatcherStep) returns (t: State<S, M>)
    requires DispatcherNext(s, step).Some?
    ensures t == DispatcherNext(s, step).value
    ensures t.registry == s.registry.(tokens := t.registry.tokens) && t.calls == s.calls && t.poller == s.poller
    ensures t.closing == s.closing && t.stopped == s.stopped && t.inside == s.inside
    ensures t.history == s.history.(started := t.history.started, processed := t.history.processed,
                                    reported := t.history.reported)
  {
    t := DispatcherNext(s, step).value;
    hide Aborted;
  }

  /** The task: its token, its own stage, and the places of those it wakes. */
  lemma TaskWrites<S, M>(s: State<S, M>, step: TaskStep) returns (t: State<S, M>)
    requires TaskNext(s, step).Some?
    ensures t == TaskNext(s, step).value
    ensures t.registry == s.registry.(tokens := t.registry.tokens) && t.poller == s.poller && t.queue == s.queue
    ensures t.dispatcher.InCallback? && s.dispatcher.InCallback?
    ensures t.dispatcher == s.dispatcher.(task := t.dispatcher.task)
    ensures t.stopped == s.stopped && t.inside == s.inside && t.health == s.health
    ensures t.history == s.history.(released := t.history.released)
  {
    t := TaskNext(s, step).value;
    hide WakeCalls, WakeClosing;
  }

  /** A caller: registrations and pending calls. */
  lemma ApiWrites<S, M>(s: State<S, M>, step: ApiStep) returns (t: State<S, M>)
    requires ApiNext(s, step).Some?
    ensures t == ApiNext(s, step).value
    ensures t.poller == s.poller && t.queue == s.queue && t.dispatcher == s.dispatcher && t.health == s.health
    ensures t.closing == s.closing && t.stopped == s.stopped && t.inside == s.inside
    ensures t.history == s.history.(retired := t.history.retired, api := t.history.api)
    ensures !step.Register? && !step.Unregister? ==>
              t.registry == s.registry.(active := t.registry.active) && t.history.api == s.history.api
  {
    t := ApiNext(s, step).value;
    hide Registry.Find, Registry.Insert, Registry.RemoveAt;
  }

  /** The dropping thread: flags and the list of entries, its own place, and the health log. */
  lemma CloseWrites<S, M>(s: State<S, M>, step: CloseStep) returns (t: State<S, M>)
    requires CloseNext(s, step).Some?
    ensures t == CloseNext(s, step).value
    ensures t.poller == s.poller && t.queue == s.queue && t.dispatcher == s.dispatcher && t.calls == s.calls
    ensures t.registry == s.registry.(active := t.registry.active, entries := t.registry.entries)
    ensures s.stopped ==> t.stopped
    ensures s.closing != Open ==> t.inside == s.inside
    ensures t.history == s.history.(retired := t.history.retired, api := t.history.api)
    ensures step != TakeEntries ==> t.registry.entries == s.registry.entries && t.history.api == s.history.api
  {
    t := CloseNext(s, step).value;
  }

  // ---------- Control ----------

  ghost predicate PollerJoined(closing: Closing) {
    closing != Open && closing != JoiningPoller
  }

  ghost predicate AbortAsked(task: Task) {
    (task.Spawned? || task.Running?) && task.aborted
  }

  ghost predicate Ended(task: Task, outcome: Outcome) {
    (task.Dropping? || task.Finished?) && task.outcome == outcome
  }

  /** An abort, and so a cancelled callback, needs the stop flag; a join never waits for a task nobody stopped. */
  ghost predicate CallbackOk(stopped: bool, at: Watch, task: Task) {
    && (AbortAsked(task) || Ended(task, Cancelled) ==> stopped)
    && (at == DecideStop ==> stopped || task.Finished?)
    && (at == DecideFinished ==> stopped)
    && (at == Joining ==> AbortAsked(task) || task.Dropping? || task.Finished?)
  }

  ghost predicate ControlOk<S, M>(s: State<S, M>) {
    && (s.stopped <==> s.closing != Open)
    && (s.closing != Open ==> s.calls == map[])
    && (PollerJoined(s.closing) ==> s.poller.PollerExited?)
    && (s.closing.CloseParked? || s.closing.CloseWoken? ==> s.closing.rest != [])
    && (s.closing == Closed ==> s.dispatcher.DispatcherExited?)
    && (s.dispatcher.DispatcherExited? ==> s.poller.PollerExited? && s.queue == [])
    && (s.poller.Refused? ==> s.poller.why == Full)
    && (s.poller.PollerExited? ==> s.stopped || s.poller.panicked)
    && (s.dispatcher.InCallback? ==> CallbackOk(s.stopped, s.dispatcher.at, s.dispatcher.task))
    && (s.dispatcher.Judging? ==>
        s.dispatcher.outcome != Completed && (s.dispatcher.outcome == Cancelled ==> s.stopped))
    && (s.dispatcher.Judging? || s.dispatcher.Recording? ==> |s.history.processed| > 0)
    && (s.inside ==> s.stopped && CallbackBody(s))
    && s.history.examined <= |s.history.taken|
    && (s.poller.Waiting? || s.poller.Taking? ==> s.history.examined == |s.history.taken|)
    && (CALLBACK in s.calls ==> CallbackBody(s))
  }

  lemma ControlApi<S, M>(s: State<S, M>, step: ApiStep)
    requires ControlOk(s) && ApiNext(s, step).Some?
    ensures ControlOk(ApiNext(s, step).value)
  {
  }

  /** Where a step leaves the poller. */
  lemma PollerMoves<S, M>(c: Config<S, M>, s: State<S, M>, step: PollerStep<S>)
    requires ControlOk(s) && PollerNext(c, s, step).Some?
    ensures var t := PollerNext(c, s, step).value;
            && !s.poller.PollerExited?
            && (t.poller.Refused? ==> t.poller.why == Full)
            && (t.poller.PollerExited? ==> s.stopped || t.poller.panicked)
            && t.history.examined <= |t.history.taken|
            && (t.poller.Waiting? || t.poller.Taking? ==> t.history.examined == |t.history.taken|)
  {
    hide Chosen, JobsFor, Accepted, Malformed, CallbackOk;
  }

  lemma ControlPoller<S, M>(c: Config<S, M>, s: State<S, M>, step: PollerStep<S>)
    requires ControlOk(s) && PollerNext(c, s, step).Some?
    ensures ControlOk(PollerNext(c, s, step).value)
  {
    var t := PollerWrites(c, s, step);
    PollerMoves(c, s, step);
    hide PollerNext, CallbackOk;
  }

  lemma ControlObserve<S, M>(s: State<S, M>)
    requires ControlOk(s) && DoObserve(s).Some?
    ensures ControlOk(DoObserve(s).value)
  {
  }

  lemma ControlDispatcherMoves<S, M>(s: State<S, M>, step: DispatcherStep)
    requires ControlOk(s) && DispatcherNext(s, step).Some? && step != Observe
    ensures ControlOk(DispatcherNext(s, step).value)
  {
    hide DoObserve;
  }

  lemma ControlDispatcher<S, M>(s: State<S, M>, step: DispatcherStep)
    requires ControlOk(s) && DispatcherNext(s, step).Some?
    ensures ControlOk(DispatcherNext(s, step).value)
  {
    hide ControlOk;
    if step == Observe {
      ControlObserve(s);
    } else {
      ControlDispatcherMoves(s, step);
    }
  }

  lemma ControlTask<S, M>(s: State<S, M>, step: TaskStep)
    requires ControlOk(s) && TaskNext(s, step).Some?
    ensures ControlOk(TaskNext(s, step).value)
  {
  }

  lemma ControlClose<S, M>(s: State<S, M>, step: CloseStep)
    requires ControlOk(s) && CloseNext(s, step).Some?
    ensures ControlOk(CloseNext(s, step).value)
  {
  }

  // ---------- Registrations and tokens ----------

  /** The registration whose in-flight token the current task owns. */
  ghost function Holder<M>(d: Dispatcher<M>): Option<nat> {
    if d.InCallback? && !d.task.Finished? then Some(d.job.reg) else None
  }

  /** `in_flight` counts live tokens, and at most one token lives in the whole transport. */
  ghost predicate TokensOk(r: Registry, holder: Option<nat>) {
    r.tokens == if holder.Some? then multiset{holder.value} else multiset{}
  }

  /** Each pending `unregister` owns its own entry; a parked one waits for a token that is still live. */
  ghost predicate CallsOk(r: Registry, calls: map<nat, Call>) {
    && (forall t :: t in calls ==>
          && calls[t].reg < |r.keys|
          && (calls[t].reg in r.active <==> calls[t].Removed?)
          && (calls[t].Parked? ==> calls[t].reg in r.tokens))
    && (forall t, u :: t in calls && u in calls && t != u ==> calls[t].reg != calls[u].reg)
  }

  /** The generations the dropping thread has taken out and not yet finished with. */
  ghost function Held(closing: Closing): seq<nat> {
    if closing.Deactivating? || closing.CloseParked? || closing.CloseWoken? then closing.rest else []
  }

  ghost predicate ClosingOk(r: Registry, closing: Closing) {
    var held := Held(closing);
    && Increasing(held)
    && (forall i :: 0 <= i < |held| ==> held[i] < |r.keys|)
    && (forall i :: 0 <= i < |held| ==> (held[i] in r.active <==> i > 0 || closing.Deactivating?))
    && (closing.CloseParked? && held != [] ==> held[0] in r.tokens)
    && (PollerJoined(closing) && closing != TakingEntries ==> r.entries == [])
  }

  ghost predicate OwnedByCall(calls: map<nat, Call>, id: nat) {
    exists t :: t in calls && calls[t].reg == id
  }

  /** Every generation is listed, in the hands of one thread that took it out, or retired. */
  ghost predicate AllOwned(r: Registry, calls: map<nat, Call>, closing: Closing, retired: set<nat>) {
    forall id: nat :: id < |r.keys| ==>
        id in r.entries || OwnedByCall(calls, id) || id in Held(closing) || id in retired
  }

  /** Nobody who has taken an entry out shares it, and a retired one is quiet. */
  ghost predicate OwnersOk(r: Registry, calls: map<nat, Call>, closing: Closing, retired: set<nat>) {
    && (forall t :: t in calls ==> calls[t].reg !in r.entries && calls[t].reg !in retired)
    && (forall id :: id in retired ==>
          id < |r.keys| && id !in r.active && id !in r.tokens && id !in r.entries && id !in Held(closing))
  }

  ghost predicate RegsOk<S, M>(s: State<S, M>) {
    && s.registry.Valid()
    && TokensOk(s.registry, Holder(s.dispatcher))
    && CallsOk(s.registry, s.calls)
    && ClosingOk(s.registry, s.closing)
    && AllOwned(s.registry, s.calls, s.closing, s.history.retired)
    && OwnersOk(s.registry, s.calls, s.closing, s.history.retired)
  }

  /** What other threads own they still own when `thread` moves; what it lets go of is retired. */
  lemma OwnedStill(r: Registry, calls: map<nat, Call>, now: map<nat, Call>, closing: Closing, retired: set<nat>,
                   after: set<nat>, thread: nat)
    requires AllOwned(r, calls, closing, retired) && retired <= after
    requires forall t :: t in calls && t != thread ==> t in now && now[t].reg == calls[t].reg
    requires thread in calls ==> calls[thread].reg in after || (thread in now && now[thread].reg == calls[thread].reg)
    ensures AllOwned(r, now, closing, after)
  {
    forall id: nat | id < |r.keys| && OwnedByCall(calls, id)
      ensures OwnedByCall(now, id) || id in after
    {
      var t :| t in calls && calls[t].reg == id;
      if t in now && now[t].reg == id {
        assert OwnedByCall(now, id);
      }
    }
  }

  // The steps that change a registration, one lemma each.

  /** A new generation belongs to the registry and to nobody else. */
  lemma InsertKeeps(r: Registry, calls: map<nat, Call>, closing: Closing, retired: set<nat>, key: Key)
    requires Held(closing) == [] && r.InBounds()
    requires CallsOk(r, calls) && AllOwned(r, calls, closing, retired) && OwnersOk(r, calls, closing, retired)
    ensures CallsOk(r.Insert(key), calls) && AllOwned(r.Insert(key), calls, closing, retired)
    ensures OwnersOk(r.Insert(key), calls, closing, retired)
  {
    assert r.Insert(key).entries[|r.entries|] == |r.keys|;
    assert forall id :: id in r.entries ==> id in r.Insert(key).entries;
  }

  lemma RegsRegister<S, M>(s: State<S, M>, key: Key)
    requires ControlOk(s) && RegsOk(s) && DoRegister(s, key).Some?
    ensures RegsOk(DoRegister(s, key).value)
  {
    InsertRefines(s.registry, key);
    InsertKeeps(s.registry, s.calls, s.closing, s.history.retired, key);
    hide CallsOk, AllOwned, OwnersOk;
  }

  /** The thread that takes an entry out becomes its only owner. */
  lemma CallTakesEntry(r: Registry, calls: map<nat, Call>, retired: set<nat>, thread: nat, index: nat)
    requires r.Valid() && index < |r.entries| && thread !in calls
    requires CallsOk(r, calls) && OwnersOk(r, calls, Open, retired)
    ensures var now := calls[thread := Removed(r.entries[index])];
            && CallsOk(r.RemoveAt(index), now)
            && OwnersOk(r.RemoveAt(index), now, Open, retired)
  {
    RemoveKeeps(r.entries, index);
    var now := calls[thread := Removed(r.entries[index])];
    assert forall t :: t in now && t != thread ==> now[t] == calls[t];
    assert r.entries[index] in r.active;
  }

  lemma TakenIsOwned(r: Registry, calls: map<nat, Call>, retired: set<nat>, thread: nat, index: nat)
    requires index < |r.entries| && Increasing(r.entries) && thread !in calls
    requires AllOwned(r, calls, Open, retired)
    ensures AllOwned(r.RemoveAt(index), calls[thread := Removed(r.entries[index])], Open, retired)
  {
    var id := r.entries[index];
    var now := calls[thread := Removed(id)];
    RemoveKeeps(r.entries, index);
    forall k: nat | k < |r.keys|
      ensures k in r.RemoveAt(index).entries || OwnedByCall(now, k) || k in retired
    {
      if k == id {
        assert now[thread].reg == k;
      } else if OwnedByCall(calls, k) {
        var u :| u in calls && calls[u].reg == k;
        assert now[u].reg == k;
      }
    }
  }

  lemma RegsUnregister<S, M>(s: State<S, M>, thread: nat, key: Key)
    requires ControlOk(s) && RegsOk(s) && DoUnregister(s, thread, key).Some?
    ensures RegsOk(DoUnregister(s, thread, key).value)
  {
    match s.registry.Find(key)
    case None =>
    case Some(index) =>
      RemoveRefines(s.registry, index);
      CallTakesEntry(s.registry, s.calls, s.history.retired, thread, index);
      TakenIsOwned(s.registry, s.calls, s.history.retired, thread, index);
      hide CallsOk, AllOwned, OwnersOk, Registry.Valid;
  }

  /** A woken caller whose token is gone returns. */
  lemma CallReturns(r: Registry, calls: map<nat, Call>, closing: Closing, retired: set<nat>, thread: nat)
    requires CallsOk(r, calls) && OwnersOk(r, calls, closing, retired) && Held(closing) == []
    requires thread in calls && calls[thread].Woken? && calls[thread].reg !in r.tokens
    ensures CallsOk(r, calls - {thread})
    ensures OwnersOk(r, calls - {thread}, closing, retired + {calls[thread].reg})
  {
  }

  /** A woken caller whose token still lives parks again. */
  lemma CallParks(r: Registry, calls: map<nat, Call>, closing: Closing, retired: set<nat>, thread: nat)
    requires CallsOk(r, calls) && OwnersOk(r, calls, closing, retired)
    requires thread in calls && calls[thread].Woken? && calls[thread].reg in r.tokens
    ensures CallsOk(r, calls[thread := Parked(calls[thread].reg)])
    ensures OwnersOk(r, calls[thread := Parked(calls[thread].reg)], closing, retired)
  {
  }

  lemma RegsRecheck<S, M>(s: State<S, M>, thread: nat)
    requires s.calls != map[] ==> s.closing == Open
    requires RegsOk(s) && DoRecheck(s, thread).Some?
    ensures RegsOk(DoRecheck(s, thread).value)
  {
    var t := DoRecheck(s, thread).value;
    OwnedStill(s.registry, s.calls, t.calls, s.closing, s.history.retired, t.history.retired, thread);
    if s.calls[thread].reg !in s.registry.tokens {
      CallReturns(s.registry, s.calls, s.closing, s.history.retired, thread);
    } else {
      CallParks(s.registry, s.calls, s.closing, s.history.retired, thread);
    }
    hide CallsOk, OwnersOk, AllOwned, Registry.Valid;
  }

  /** A caller that has just deactivated its entry is where a woken one is. */
  lemma CallDeactivates(r: Registry, calls: map<nat, Call>, closing: Closing, retired: set<nat>, thread: nat)
    requires CallsOk(r, calls) && OwnersOk(r, calls, closing, retired) && r.Valid()
    requires thread in calls
    ensures var reg := calls[thread].reg;
            && r.Deactivate(reg).Valid()
            && CallsOk(r.Deactivate(reg), calls[thread := Woken(reg)])
            && OwnersOk(r.Deactivate(reg), calls[thread := Woken(reg)], closing, retired)
  {
  }

  /** `deactivate_and_wait` is the flag, then the test every wake-up repeats. */
  ghost function FlagDown<S, M>(s: State<S, M>, thread: nat): State<S, M>
    requires thread in s.calls
  {
    s.(registry := s.registry.Deactivate(s.calls[thread].reg), calls := s.calls[thread := Woken(s.calls[thread].reg)])
  }

  lemma DeactivateThenRecheck<S, M>(s: State<S, M>, thread: nat)
    requires DoDeactivate(s, thread).Some?
    ensures DoDeactivate(s, thread) == DoRecheck(FlagDown(s, thread), thread)
  {
    var reg := s.calls[thread].reg;
    assert s.calls[thread := Woken(reg)] - {thread} == s.calls - {thread};
    assert s.calls[thread := Woken(reg)][thread := Parked(reg)] == s.calls[thread := Parked(reg)];
  }

  /** A caller's flag is no business of a transport that is open. */
  lemma FlagOfCaller(r: Registry, id: nat, calls: map<nat, Call>, closing: Closing, retired: set<nat>)
    requires closing == Open && AllOwned(r, calls, closing, retired)
    ensures ClosingOk(r.Deactivate(id), closing) && AllOwned(r.Deactivate(id), calls, closing, retired)
  {
  }

  lemma FlagDownKeeps<S, M>(s: State<S, M>, thread: nat)
    requires RegsOk(s) && thread in s.calls && s.closing == Open
    ensures RegsOk(FlagDown(s, thread))
  {
    hide CallsOk, ClosingOk, OwnersOk, AllOwned, Registry.Valid;
    var mid := FlagDown(s, thread);
    CallDeactivates(s.registry, s.calls, s.closing, s.history.retired, thread);
    OwnedStill(s.registry, s.calls, mid.calls, s.closing, s.history.retired, s.history.retired, thread);
    FlagOfCaller(s.registry, s.calls[thread].reg, mid.calls, s.closing, s.history.retired);
  }

  lemma RegsDeactivate<S, M>(s: State<S, M>, thread: nat)
    requires ControlOk(s) && RegsOk(s) && DoDeactivate(s, thread).Some?
    ensures RegsOk(DoDeactivate(s, thread).value)
  {
    FlagDownKeeps(s, thread);
    DeactivateThenRecheck(s, thread);
    hide RegsOk;
    RegsRecheck(FlagDown(s, thread), thread);
  }

  /** A token for an active registration disturbs nobody who waits. */
  lemma AcquireKeeps(r: Registry, calls: map<nat, Call>, closing: Closing, retired: set<nat>, reg: nat)
    requires r.Valid() && CallsOk(r, calls) && ClosingOk(r, closing) && OwnersOk(r, calls, closing, retired)
    requires reg in r.active
    ensures r.Acquire(reg).Valid() && CallsOk(r.Acquire(reg), calls)
    ensures ClosingOk(r.Acquire(reg), closing) && OwnersOk(r.Acquire(reg), calls, closing, retired)
  {
  }

  lemma RegsBegin<S, M>(s: State<S, M>)
    requires ControlOk(s) && RegsOk(s) && DoBegin(s).Some?
    ensures RegsOk(DoBegin(s).value)
  {
    var reg := s.dispatcher.job.reg;
    if reg in s.registry.active {
      AcquireKeeps(s.registry, s.calls, s.closing, s.history.retired, reg);
    }
    hide Registry.Valid, CallsOk, ClosingOk, OwnersOk, Held;
  }

  /** Dropping the last token wakes every thread that waits for it, so none is left parked for nothing. */
  lemma ReleaseWakesCalls(r: Registry, calls: map<nat, Call>, reg: nat)
    requires r.tokens == multiset{reg} && CallsOk(r, calls)
    ensures CallsOk(r.Release(reg), WakeCalls(calls, reg))
  {
  }

  lemma ReleaseKeepsOwners(r: Registry, calls: map<nat, Call>, closing: Closing, retired: set<nat>, reg: nat)
    requires r.tokens == multiset{reg}
    requires AllOwned(r, calls, closing, retired) && OwnersOk(r, calls, closing, retired)
    ensures AllOwned(r.Release(reg), WakeCalls(calls, reg), WakeClosing(closing, reg), retired)
    ensures OwnersOk(r.Release(reg), WakeCalls(calls, reg), WakeClosing(closing, reg), retired)
  {
    var now := WakeCalls(calls, reg);
    forall id | OwnedByCall(calls, id)
      ensures OwnedByCall(now, id)
    {
      var t :| t in calls && calls[t].reg == id;
      assert now[t].reg == id;
    }
  }

  lemma ReleaseWakesClosing(r: Registry, closing: Closing, reg: nat)
    requires r.tokens == multiset{reg} && ClosingOk(r, closing)
    ensures ClosingOk(r.Release(reg), WakeClosing(closing, reg))
  {
  }

  /** No token is left. */
  lemma ReleaseKeepsRegistry(r: Registry, reg: nat)
    requires r.Valid() && r.tokens == multiset{reg}
    ensures r.Release(reg).Valid() && r.Release(reg).tokens == multiset{}
  {
  }

  lemma RegsRelease<S, M>(s: State<S, M>)
    requires ControlOk(s) && RegsOk(s) && DoRelease(s).Some?
    ensures RegsOk(DoRelease(s).value)
  {
    hide ControlOk, CallsOk, AllOwned, OwnersOk, ClosingOk, Registry.Valid, WakeCalls, WakeClosing;
    var reg := s.dispatcher.job.reg;
    assert s.registry.tokens == multiset{reg};
    ReleaseKeepsRegistry(s.registry, reg);
    ReleaseWakesCalls(s.registry, s.calls, reg);
    ReleaseKeepsOwners(s.registry, s.calls, s.closing, s.history.retired, reg);
    ReleaseWakesClosing(s.registry, s.closing, reg);
  }

  lemma RegsTakeEntries<S, M>(s: State<S, M>)
    requires ControlOk(s) && RegsOk(s) && DoTakeEntries(s).Some?
    ensures RegsOk(DoTakeEntries(s).value)
  {
  }

  /** Where the dropping thread stands after it has deactivated the first entry it holds. */
  ghost function AfterFirst(r: Registry, rest: seq<nat>): Closing
    requires rest != []
  {
    if rest[0] !in r.tokens then Deactivating(rest[1..]) else CloseParked(rest)
  }

  ghost function RetiredAfter(r: Registry, rest: seq<nat>, retired: set<nat>): set<nat>
    requires rest != []
  {
    if rest[0] !in r.tokens then retired + {rest[0]} else retired
  }

  /** Its flag down, the first entry is where a woken one is. */
  lemma CloserDeactivates(r: Registry, rest: seq<nat>, retired: set<nat>)
    requires r.Valid() && r.entries == [] && ClosingOk(r, Deactivating(rest)) && rest != []
    requires AllOwned(r, map[], Deactivating(rest), retired) && OwnersOk(r, map[], Deactivating(rest), retired)
    ensures r.Deactivate(rest[0]).Valid() && ClosingOk(r.Deactivate(rest[0]), CloseWoken(rest))
    ensures AllOwned(r.Deactivate(rest[0]), map[], CloseWoken(rest), retired)
    ensures OwnersOk(r.Deactivate(rest[0]), map[], CloseWoken(rest), retired)
  {
  }

  /** A woken dropping thread retires the entry, or waits for its token again. */
  lemma CloserRechecks(r: Registry, rest: seq<nat>, retired: set<nat>)
    requires r.entries == [] && ClosingOk(r, CloseWoken(rest)) && rest != []
    requires AllOwned(r, map[], CloseWoken(rest), retired) && OwnersOk(r, map[], CloseWoken(rest), retired)
    ensures ClosingOk(r, AfterFirst(r, rest))
    ensures AllOwned(r, map[], AfterFirst(r, rest), RetiredAfter(r, rest, retired))
    ensures OwnersOk(r, map[], AfterFirst(r, rest), RetiredAfter(r, rest, retired))
  {
    assert rest == [rest[0]] + rest[1..];
  }

  lemma RegsRecheckNext<S, M>(s: State<S, M>)
    requires s.calls == map[] && s.registry.entries == []
    requires RegsOk(s) && DoRecheckNext(s).Some?
    ensures RegsOk(DoRecheckNext(s).value)
  {
    hide Registry.Valid, CallsOk, TokensOk, ClosingOk, AllOwned, OwnersOk;
    CloserRechecks(s.registry, s.closing.rest, s.history.retired);
  }

  lemma FlagDownFrame(r: Registry, id: nat, holder: Option<nat>)
    requires TokensOk(r, holder) && CallsOk(r, map[])
    ensures TokensOk(r.Deactivate(id), holder) && CallsOk(r.Deactivate(id), map[])
  {
  }

  lemma RegsDeactivateNext<S, M>(s: State<S, M>)
    requires ControlOk(s) && RegsOk(s) && DoDeactivateNext(s).Some?
    ensures RegsOk(DoDeactivateNext(s).value)
  {
    var rest := s.closing.rest;
    assert s.calls == map[] && s.registry.entries == [] by {
      hide CallsOk, AllOwned, OwnersOk, Registry.Valid;
    }
    hide ControlOk, Registry.Valid, CallsOk, AllOwned, OwnersOk, TokensOk;
    if rest != [] {
      var mid := s.(registry := s.registry.Deactivate(rest[0]), closing := CloseWoken(rest));
      CloserDeactivates(s.registry, rest, s.history.retired);
      hide ClosingOk;
      FlagDownFrame(s.registry, rest[0], Holder(s.dispatcher));
      RegsRecheckNext(mid);
      assert DoDeactivateNext(s) == DoRecheckNext(mid);
    }
  }

  // ---------- The steps that change none ----------

  lemma RegsFrame<S, M>(s: State<S, M>, t: State<S, M>)
    requires RegsOk(s)
    requires t.registry == s.registry && t.calls == s.calls && t.history.retired == s.history.retired
    requires Holder(t.dispatcher) == Holder(s.dispatcher)
    requires t.closing == s.closing
    ensures RegsOk(t)
  {
  }

  lemma CallWakes(r: Registry, calls: map<nat, Call>, closing: Closing, retired: set<nat>, thread: nat)
    requires CallsOk(r, calls) && OwnersOk(r, calls, closing, retired)
    requires thread in calls && calls[thread].Parked?
    ensures CallsOk(r, calls[thread := Woken(calls[thread].reg)])
    ensures OwnersOk(r, calls[thread := Woken(calls[thread].reg)], closing, retired)
  {
  }

  lemma RegsSpuriousWake<S, M>(s: State<S, M>, thread: nat)
    requires RegsOk(s) && DoSpuriousWake(s, thread).Some?
    ensures RegsOk(DoSpuriousWake(s, thread).value)
  {
    CallWakes(s.registry, s.calls, s.closing, s.history.retired, thread);
    OwnedStill(s.registry, s.calls, DoSpuriousWake(s, thread).value.calls, s.closing, s.history.retired,
               s.history.retired, thread);
    hide CallsOk, AllOwned, OwnersOk, Registry.Valid;
  }

  lemma RegsApi<S, M>(s: State<S, M>, step: ApiStep)
    requires ControlOk(s) && RegsOk(s) && ApiNext(s, step).Some?
    ensures RegsOk(ApiNext(s, step).value)
  {
    hide RegsOk;
    match step
    case Register(key) => RegsRegister(s, key);
    case Unregister(thread, key) => RegsUnregister(s, thread, key);
    case Deactivate(thread) => RegsDeactivate(s, thread);
    case Recheck(thread) => RegsRecheck(s, thread);
    case SpuriousWake(thread) => RegsSpuriousWake(s, thread);
  }

  lemma RegsPoller<S, M>(c: Config<S, M>, s: State<S, M>, step: PollerStep<S>)
    requires RegsOk(s) && PollerNext(c, s, step).Some?
    ensures RegsOk(PollerNext(c, s, step).value)
  {
    var t := PollerWrites(c, s, step);
    hide RegsOk, PollerNext;
    RegsFrame(s, t);
  }

  lemma RegsDispatcher<S, M>(s: State<S, M>, step: DispatcherStep)
    requires ControlOk(s) && RegsOk(s) && DispatcherNext(s, step).Some?
    ensures RegsOk(DispatcherNext(s, step).value)
  {
    hide RegsOk;
    if step == Begin {
      RegsBegin(s);
    } else {
      RegsFrame(s, DispatcherNext(s, step).value);
    }
  }

  lemma RegsTask<S, M>(s: State<S, M>, step: TaskStep)
    requires ControlOk(s) && RegsOk(s) && TaskNext(s, step).Some?
    ensures RegsOk(TaskNext(s, step).value)
  {
    hide RegsOk;
    if step == ReleaseToken {
      RegsRelease(s);
    } else {
      RegsFrame(s, TaskNext(s, step).value);
    }
  }

  /** Closing steps that only move the dropping thread. */
  lemma RegsClosingMoves<S, M>(s: State<S, M>, t: State<S, M>)
    requires RegsOk(s)
    requires t.registry == s.registry && t.calls == s.calls && t.history == s.history && t.dispatcher == s.dispatcher
    requires Held(t.closing) == Held(s.closing)
    requires t.closing.Deactivating? == s.closing.Deactivating? || Held(s.closing) == []
    requires !t.closing.CloseParked?
    requires PollerJoined(t.closing) && t.closing != TakingEntries ==>
             PollerJoined(s.closing) && s.closing != TakingEntries
    ensures RegsOk(t)
  {
  }

  lemma RegsClose<S, M>(s: State<S, M>, step: CloseStep)
    requires ControlOk(s) && RegsOk(s) && CloseNext(s, step).Some?
    ensures RegsOk(CloseNext(s, step).value)
  {
    assert step == RecheckNext ==> s.registry.entries == [];
    hide RegsOk;
    match step
    case TakeEntries => RegsTakeEntries(s);
    case DeactivateNext => RegsDeactivateNext(s);
    case RecheckNext => RegsRecheckNext(s);
    case _ => RegsClosingMoves(s, CloseNext(s, step).value);
  }
}
