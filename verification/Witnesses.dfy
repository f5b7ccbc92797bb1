/**
 Runs that show where a guarantee ends: a callback that begins after stop, a panic that is never reported,
 and a drop that never ends.
 */
module Witnesses {
  import opened Wrappers
  import opened RegistryModel
  import opened Health
  import opened Protocol
  import opened Delivery
  import opened Invariant
  import opened Ordering
  import opened Returning
  import opened Shutdown
  import opened Unregistering

  /** A sample of another origin that some filter accepts. */
  ghost predicate Deliverable<S, M>(c: Config<S, M>, key: Key, sample: S, message: M) {
    && Validated(c)
    && c.family.origin(sample) != c.originId && c.family.decode(sample) == Ok(message)
    && c.matches(key.source, c.family.source(message))
    && (key.sink.None? <==> c.family.sink(message).None?)
    && (key.sink.Some? ==> c.matches(key.sink.value, c.family.sink(message).value))
  }

  /** An open transport on which nothing has been reported and nobody waits. */
  ghost predicate Undisturbed<S, M>(s: State<S, M>) {
    && s.closing == Open && !s.stopped && !s.inside && s.calls == map[]
    && s.history.processed == [] && s.history.reported == [] && s.health == []
  }

  /** The one registration there is, the first one, has this key and is listed. */
  ghost predicate OneListed<S, M>(s: State<S, M>, key: Key) {
    s.registry.keys == [key] && s.registry.entries == [0]
  }

  /** One registration, and its one job about to be offered. */
  ghost predicate OfferingOne<S, M>(s: State<S, M>, job: Job<M>) {
    && Undisturbed(s) && s.poller == Batch([job]) && s.queue == [] && s.dispatcher == Receiving
    && s.history.started == [] && job.reg in s.registry.active
  }

  /** The dispatcher has taken the job off the queue. */
  ghost predicate HoldingOne<S, M>(s: State<S, M>, job: Job<M>) {
    && Undisturbed(s) && s.poller == Batch([]) && s.dispatcher == Beginning(job)
    && s.history.started == [] && job.reg in s.registry.active
  }

  /** Its callback is running. */
  ghost predicate RunningOne<S, M>(s: State<S, M>, job: Job<M>) {
    Undisturbed(s) && s.dispatcher == InCallback(job, TestFinished, Running(false)) && s.history.started == [job]
  }

  /** The reader returns nothing but this sample. */
  ghost predicate OnlyTakes<S>(steps: seq<Step<S>>, sample: S) {
    forall i :: 0 <= i < |steps| && steps[i].Poll? && steps[i].poll.Take? ==>
                  steps[i].poll.result == Samples([Some(sample)])
  }

  /** Register, take one sample, and look at it. */
  lemma ReachesOffer<S, M>(c: Config<S, M>, key: Key, sample: S, message: M)
    returns (steps: seq<Step<S>>, s: State<S, M>)
    requires Deliverable(c, key, sample, message)
    ensures After(c, Init(), steps) == Some(s) && OfferingOne(s, Job(0, 0, message)) && OneListed(s, key)
    ensures OnlyTakes(steps, sample)
  {
    steps, s := [], Init();
    assert After(c, Init(), steps) == Some(s);
    assert Accepts(c.matches, key, c.family.source(message), c.family.sink(message));
    assert Accepted(c, Some(sample));
    hide After, Accepts;
    steps, s := Extend(c, Init(), steps, s, Api(Register(key)));
    steps, s := Extend(c, Init(), steps, s, Poll(Wake));
    steps, s := Extend(c, Init(), steps, s, Poll(Take(Samples([Some(sample)]))));
    assert s.history.taken == [Some(sample)] && s.registry.keys == [key] && s.registry.entries == [0];
    assert Select(c.matches, [key], [0], c.family.source(message), c.family.sink(message)) == [0] + [];
    steps, s := Extend(c, Init(), steps, s, Poll(Advance));
    assert JobsFor(0, message, [0]) == [Job(0, 0, message)];
  }

  lemma ReachesDispatcher<S, M>(c: Config<S, M>, key: Key, sample: S, message: M)
    returns (steps: seq<Step<S>>, s: State<S, M>)
    requires Deliverable(c, key, sample, message)
    ensures After(c, Init(), steps) == Some(s) && HoldingOne(s, Job(0, 0, message)) && OneListed(s, key)
    ensures OnlyTakes(steps, sample)
  {
    steps, s := ReachesOffer(c, key, sample, message);
    hide After, Init;
    steps, s := Extend(c, Init(), steps, s, Poll(Advance));
    steps, s := Extend(c, Init(), steps, s, Dispatch(Receive));
  }

  lemma ReachesCallback<S, M>(c: Config<S, M>, key: Key, sample: S, message: M)
    returns (steps: seq<Step<S>>, s: State<S, M>)
    requires Deliverable(c, key, sample, message)
    ensures After(c, Init(), steps) == Some(s) && RunningOne(s, Job(0, 0, message)) && OneListed(s, key)
    ensures OnlyTakes(steps, sample)
  {
    steps, s := ReachesDispatcher(c, key, sample, message);
    hide After, Deliverable, Init;
    steps, s := Extend(c, Init(), steps, s, Dispatch(Begin));
    steps, s := Extend(c, Init(), steps, s, Run(Start));
  }

  // ---------- A malformed sample ----------

  /** A sample of another origin that does not decode is counted as malformed, and reaches nobody. */
  lemma MalformedHappens<S(!new), M(!new)>(c: Config<S, M>, sample: S)
    requires Validated(c) && c.family.origin(sample) != c.originId && c.family.decode(sample).Err?
    ensures exists s: State<S, M> :: Reachable(c, s) && Count(s.health, MalformedSample) == 1 && s.history.offers == []
  {
    var steps: seq<Step<S>>, s: State<S, M> := [], Init();
    assert After(c, Init(), steps) == Some(s);
    hide After;
    steps, s := Extend(c, Init(), steps, s, Poll(Wake));
    steps, s := Extend(c, Init(), steps, s, Poll(Take(Samples([Some(sample)]))));
    assert s.history.taken == [Some(sample)];
    steps, s := Extend(c, Init(), steps, s, Poll(Advance));
    assert s.health == [] + [MalformedSample];
    CountAppend([], MalformedSample);
    assert Reachable(c, s);
  }

  // ---------- Stop alone ----------

  /**
   Raising the stop flag does not by itself keep callbacks from beginning: some run takes a job off the
   queue, stops, and then begins the callback, because its registration is not deactivated yet.
   */
  lemma StopAloneDoesNotSilence<S(!new), M(!new)>(c: Config<S, M>, key: Key, sample: S, message: M)
    requires Deliverable(c, key, sample, message)
    ensures exists s: State<S, M> :: Reachable(c, s) && s.stopped && s.history.started == []
                                     && Next(c, s, Dispatch(Begin)).Some?
                                     && Next(c, s, Dispatch(Begin)).value.history.started == [Job(0, 0, message)]
  {
    var steps, s := ReachesDispatcher(c, key, sample, message);
    hide After, Deliverable, Init;
    steps, s := Extend(c, Init(), steps, s, Close(Stop(false)));
    assert Reachable(c, s);
    assert Next(c, s, Dispatch(Begin)) == DoBegin(s);
  }

  // ---------- A panic that nobody hears of ----------

  /** The callback panics and gives its token back. */
  lemma PanicsAndReleases<S, M>(c: Config<S, M>, key: Key, sample: S, message: M)
    returns (steps: seq<Step<S>>, s: State<S, M>)
    requires Deliverable(c, key, sample, message)
    ensures After(c, Init(), steps) == Some(s) && Undisturbed(s)
    ensures s.dispatcher == InCallback(Job(0, 0, message), TestFinished, Finished(Panicked))
  {
    steps, s := ReachesCallback(c, key, sample, message);
    hide After, Deliverable, Init;
    steps, s := Extend(c, Init(), steps, s, Run(End(true)));
    steps, s := Extend(c, Init(), steps, s, Run(ReleaseToken));
  }

  /** It is joined; the stop flag is down throughout. */
  lemma PanicsAndJoins<S, M>(c: Config<S, M>, key: Key, sample: S, message: M)
    returns (steps: seq<Step<S>>, s: State<S, M>)
    requires Deliverable(c, key, sample, message)
    ensures After(c, Init(), steps) == Some(s)
    ensures !s.stopped && s.closing == Open && s.calls == map[] && s.dispatcher == Judging(Panicked)
    ensures s.history.processed == [Processed(Job(0, 0, message), Ran(Panicked))]
    ensures s.history.reported == [] && s.health == []
  {
    steps, s := PanicsAndReleases(c, key, sample, message);
    hide After, Deliverable, Init, TaskNext, ApiNext, PollerNext, CloseNext;
    steps, s := Extend(c, Init(), steps, s, Dispatch(Observe));
    steps, s := Extend(c, Init(), steps, s, Dispatch(Observe));
    steps, s := Extend(c, Init(), steps, s, Dispatch(Join));
  }

  /**
   A callback can panic and be joined while the stop flag is down, and never be counted: the flag goes up
   between the join and the second look at it. Here the whole drop runs to its end.
   */
  lemma PanicCanBeLost<S(!new), M(!new)>(c: Config<S, M>, key: Key, sample: S, message: M)
    requires Deliverable(c, key, sample, message)
    ensures exists s: State<S, M>, steps: seq<Step<S>>, t: State<S, M> ::
              && Reachable(c, s) && !s.stopped
              && s.history.processed == [Processed(Job(0, 0, message), Ran(Panicked))]
              && After(c, s, steps) == Some(t) && t.closing == Closed && Count(t.health, CallbackPanic) == 0
  {
    var first, s := PanicsAndJoins(c, key, sample, message);
    hide After, Deliverable, Init;
    assert Reachable(c, s);
    var stop: Step<S> := Close(Stop(false));
    var u := DoStop(s, false).value;
    assert Next(c, s, stop) == Some(u) && !u.inside && u.stopped;
    ReachableNext(c, s, stop, u);
    DropEndsIff(c, u);
    var rest: seq<Step<S>>, t: State<S, M> :| After(c, u, rest) == Some(t) && t.closing == Closed;
    AfterCons(c, s, stop, u, rest);
    PanicsReportedExactly(c, s, false, u, rest, t);
    assert s.history.processed[..0] == [];
    assert CountFate(s.history.processed, Ran(Panicked)) == 1;
  }

  // ---------- A call that never returns ----------

  lemma CallsItself<S, M>(c: Config<S, M>, key: Key, sample: S, message: M)
    returns (steps: seq<Step<S>>, s: State<S, M>)
    requires Deliverable(c, key, sample, message)
    ensures After(c, Init(), steps) == Some(s) && SelfUnregister(s)
  {
    steps, s := ReachesCallback(c, key, sample, message);
    hide After, Deliverable, Init;
    assert s.registry.Find(key) == Some(0);
    steps, s := Extend(c, Init(), steps, s, Api(Unregister(CALLBACK, key)));
  }

  /** A running callback can unregister its own registration, and then nobody can let that call return. */
  lemma SelfUnregisterCanHang<S(!new), M(!new)>(c: Config<S, M>, key: Key, sample: S, message: M)
    requires Deliverable(c, key, sample, message)
    ensures exists s: State<S, M> ::
              Reachable(c, s) && SelfUnregister(s) && CALLBACK in s.calls && !CanReturn(c, s, CALLBACK)
  {
    var steps, s := CallsItself(c, key, sample, message);
    assert Reachable(c, s);
    hide After, Deliverable, Init, Reachable, CanReturn;
    UnregisterReturnsIff(c, s, CALLBACK);
  }

  // ---------- A drop that never ends ----------

  /** A running callback can drop the transport, and then nobody can bring that drop to its end. */
  lemma DropInsideCanHang<S(!new), M(!new)>(c: Config<S, M>, key: Key, sample: S, message: M)
    requires Deliverable(c, key, sample, message)
    ensures exists s: State<S, M> :: Reachable(c, s) && s.stopped && !CanClose(c, s)
  {
    var steps, s := ReachesCallback(c, key, sample, message);
    hide After, Deliverable, Init;
    steps, s := Extend(c, Init(), steps, s, Close(Stop(true)));
    assert Reachable(c, s);
    hide Next, Undisturbed, Reachable;
    DropEndsIff(c, s);
  }
}
