/**
 The poller in its own form: its pass over one batch, on the objects it works with, refines the poller's steps
 of the protocol.
 */
module Workers {
  import opened Wrappers
  import opened Health
  import opened Protocol
  import opened Invariant
  import ListenerRegistry

  /** What a queued closure captures: the registration and its own copy of the message. */
  datatype Callback<M> = Callback(registration: ListenerRegistry.Registration, message: M)

  /** The bounded job channel. */
  class JobQueue<M> {
    const capacity: nat
    var jobs: seq<Callback<M>>

    constructor (capacity: nat)
      ensures this.capacity == capacity && jobs == []
    {
      this.capacity := capacity;
      jobs := [];
    }

    /** `try_send` while the receiver lives: never blocks, and refuses a job when the channel is full. */
    method TrySend(job: Callback<M>) returns (sent: bool)
      modifies this
      ensures sent == (|old(jobs)| < capacity)
      ensures jobs == if sent then old(jobs) + [job] else old(jobs)
    {
      sent := |jobs| < capacity;
      if sent {
        jobs := jobs + [job];
      }
    }
  }

  // ---------- The poller's pass over one batch ----------

  ghost predicate PollerOnly<S>(steps: seq<Step<S>>) {
    forall i :: 0 <= i < |steps| ==> steps[i].Poll?
  }

  /** A queued closure stands for a job of the protocol: it holds the very registration that was created for it. */
  ghost predicate StandsFor<M>(created: seq<ListenerRegistry.Registration>, callback: Callback<M>, job: Job<M>) {
    job.reg < |created| && callback.registration == created[job.reg] && callback.message == job.message
  }

  ghost predicate QueueStandsFor<M>(created: seq<ListenerRegistry.Registration>, callbacks: seq<Callback<M>>,
                                    jobs: seq<Job<M>>)
  {
    |callbacks| == |jobs| && forall i :: 0 <= i < |jobs| ==> StandsFor(created, callbacks[i], jobs[i])
  }

  /** The objects of the poller hold what state `t` of the protocol says. */
  ghost predicate Mirrors<S, M>(t: State<S, M>, registry: ListenerRegistry.Registry, queue: JobQueue<M>,
                                health: DdsHealth)
    reads registry, registry.created, queue, health
  {
    && registry.Valid() && registry.model == t.registry
    && QueueStandsFor(registry.created, queue.jobs, t.queue)
    && health.Valid() && Kinds(health.history) == t.health
    && !t.dispatcher.DispatcherExited?
  }

  /** A run of the poller alone leads from `s` to `t`. */
  ghost predicate PolledTo<S, M>(c: Config<S, M>, s: State<S, M>, steps: seq<Step<S>>, t: State<S, M>) {
    PollerOnly(steps) && After(c, s, steps) == Some(t)
  }

  lemma PolledOn<S, M>(c: Config<S, M>, s: State<S, M>, steps: seq<Step<S>>, t: State<S, M>, poll: PollerStep<S>)
    requires PolledTo(c, s, steps, t) && PollerNext(c, t, poll).Some?
    ensures PolledTo(c, s, steps + [Poll(poll)], PollerNext(c, t, poll).value)
  {
    AfterSnoc(c, s, steps, t, Poll(poll));
  }

  /** `submit`, together with the record of a refusal. */
  method Submit<S, M>(ghost c: Config<S, M>, registry: ListenerRegistry.Registry, queue: JobQueue<M>, health: DdsHealth,
                      job: Callback<M>, ghost s: State<S, M>, ghost steps: seq<Step<S>>, ghost t: State<S, M>)
    returns (ghost more: seq<Step<S>>, ghost u: State<S, M>)
    requires queue.capacity == c.capacity && Mirrors(t, registry, queue, health) && PolledTo(c, s, steps, t)
    requires t.poller.Batch? && t.poller.pending != []
    requires StandsFor(registry.created, job, t.poller.pending[0])
    modifies queue, health
    ensures Mirrors(u, registry, queue, health) && PolledTo(c, s, more, u)
    ensures u.poller == Batch(t.poller.pending[1..]) && steps <= more
    ensures u.history.taken == t.history.taken && u.history.examined == t.history.examined
  {
    hide PolledTo, Kinds, DdsHealth.Valid;
    PolledOn(c, s, steps, t, Advance);
    more, u := steps + [Poll(Advance)], DoSubmit(c, t).value;
    var sent := queue.TrySend(job);
    if !sent {
      health.Record(DispatchBackpressure, "callback queue is full");
      PolledOn(c, s, more, u, RecordRefusal);
      more, u := more + [Poll(RecordRefusal)], DoRecordRefusal(u).value;
    }
  }

  /** The body of the loop over samples: filter, decode, match, and submit to each match in order. */
  method HandleSample<S, M>(c: Config<S, M>, registry: ListenerRegistry.Registry, queue: JobQueue<M>, health: DdsHealth,
                            sample: Option<S>, ghost s: State<S, M>, ghost steps: seq<Step<S>>, ghost t: State<S, M>)
    returns (ghost more: seq<Step<S>>, ghost u: State<S, M>)
    requires queue.capacity == c.capacity && Mirrors(t, registry, queue, health) && PolledTo(c, s, steps, t)
    requires t.poller == Batch([]) && t.history.examined < |t.history.taken|
             && t.history.taken[t.history.examined] == sample
    modifies queue, health
    ensures Mirrors(u, registry, queue, health) && PolledTo(c, s, more, u)
    ensures u.poller == Batch([]) && steps <= more
    ensures u.history.taken == t.history.taken && u.history.examined == t.history.examined + 1
  {
    hide PolledTo, Kinds, DdsHealth.Valid, ListenerRegistry.Registry.Valid, QueueStandsFor;
    PolledOn(c, s, steps, t, Advance);
    more, u := steps + [Poll(Advance)], DoExamine(c, t).value;
    if sample.None? {
      return;
    }
    if c.family.origin(sample.value) == c.originId {
      return;
    }
    var decoded := c.family.decode(sample.value);
    if decoded.Err? {
      health.Record(MalformedSample, decoded.error);
      return;
    }
    var message := decoded.value;
    var found := registry.Matching(c.matches, c.family.source(message), c.family.sink(message));
    more, u := SubmitAll(c, registry, queue, health, found, message, s, more, u);
  }

  /** One job for each registration found, in order. */
  method SubmitAll<S, M>(ghost c: Config<S, M>, registry: ListenerRegistry.Registry, queue: JobQueue<M>,
                         health: DdsHealth, found: seq<ListenerRegistry.Registration>, message: M,
                         ghost s: State<S, M>, ghost steps: seq<Step<S>>, ghost t: State<S, M>)
    returns (ghost more: seq<Step<S>>, ghost u: State<S, M>)
    requires queue.capacity == c.capacity && Mirrors(t, registry, queue, health) && PolledTo(c, s, steps, t)
    requires t.poller.Batch? && |t.poller.pending| == |found|
    requires forall k :: 0 <= k < |found| ==>
               StandsFor(registry.created, Callback(found[k], message), t.poller.pending[k])
    modifies queue, health
    ensures Mirrors(u, registry, queue, health) && PolledTo(c, s, more, u)
    ensures u.poller == Batch([]) && steps <= more
    ensures u.history.taken == t.history.taken && u.history.examined == t.history.examined
  {
    hide PolledTo, Mirrors, StandsFor;
    more, u := steps, t;
    for k := 0 to |found|
      invariant Mirrors(u, registry, queue, health) && PolledTo(c, s, more, u) && steps <= more
      invariant u.poller == Batch(t.poller.pending[k..])
      invariant u.history.taken == t.history.taken && u.history.examined == t.history.examined
    {
      more, u := Submit(c, registry, queue, health, Callback(found[k], message), s, more, u);
    }
  }

  /** One turn of the poller: what the reader returned, handled sample by sample, as the protocol's steps do it. */
  method PollOnce<S, M>(c: Config<S, M>, registry: ListenerRegistry.Registry, queue: JobQueue<M>, health: DdsHealth,
                        result: TakeResult<S>, ghost s: State<S, M>)
    returns (ghost steps: seq<Step<S>>, ghost t: State<S, M>)
    requires queue.capacity == c.capacity && Mirrors(s, registry, queue, health)
    requires s.poller == Taking && s.history.examined == |s.history.taken|
    requires result.Samples? ==> |result.samples| <= c.maxSamples
    modifies queue, health
    ensures Mirrors(t, registry, queue, health) && PolledTo(c, s, steps, t)
    ensures |steps| > 0 && steps[0] == Poll(Take(result))
    ensures t.poller == Waiting && t.history.examined == |t.history.taken|
    ensures t.history.taken == s.history.taken + (if result.Samples? then result.samples else [])
  {
    hide Kinds, DdsHealth.Valid, ListenerRegistry.Registry.Valid, QueueStandsFor;
    assert PolledTo(c, s, [], s);
    hide PolledTo;
    PolledOn(c, s, [], s, Take(result));
    steps, t := [] + [Poll(Take(result))], DoTake(c, s, result).value;
    match result {
      case Samples(samples) =>
        for i := 0 to |samples|
          invariant Mirrors(t, registry, queue, health) && PolledTo(c, s, steps, t)
          invariant t.poller == Batch([]) && |steps| > 0 && steps[0] == Poll(Take(result))
          invariant t.history.taken == s.history.taken + samples && t.history.examined == |s.history.taken| + i
        {
          steps, t := HandleSample(c, registry, queue, health, samples[i], s, steps, t);
        }
        PolledOn(c, s, steps, t, Advance);
        steps, t := steps + [Poll(Advance)], DoAdvance(c, t).value;
      case NoData =>
      case TakeFailed => health.Record(Dds, "reader take");
    }
  }
}
