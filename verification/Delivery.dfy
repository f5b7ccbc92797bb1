/**
 What every step keeps about jobs: where each one is, in which order, and how it is counted.
 */
module Delivery {
  import opened Wrappers
  import opened RegistryModel
  import opened Health
  import opened Protocol
  import opened Safety

  // ---------- Reading the logs ----------

  /** Every snapshot's jobs, in the order the snapshots were taken. */
  ghost function Flatten<M>(snapshots: seq<Snapshot<M>>): seq<Job<M>> {
    if snapshots == [] then []
    else
      var last := snapshots[|snapshots| - 1];
      Flatten(snapshots[..|snapshots| - 1]) + JobsFor(last.sample, last.message, last.chosen)
  }

  ghost function OfferedJobs<M>(offers: seq<Offer<M>>): seq<Job<M>> {
    if offers == [] then [] else OfferedJobs(offers[..|offers| - 1]) + [offers[|offers| - 1].job]
  }

  ghost function SentJobs<M>(offers: seq<Offer<M>>): seq<Job<M>> {
    if offers == [] then []
    else SentJobs(offers[..|offers| - 1]) + (if offers[|offers| - 1].sent then [offers[|offers| - 1].job] else [])
  }

  ghost function ProcessedJobs<M>(processed: seq<Processed<M>>): seq<Job<M>> {
    if processed == [] then [] else ProcessedJobs(processed[..|processed| - 1]) + [processed[|processed| - 1].job]
  }

  ghost function RanJobs<M>(processed: seq<Processed<M>>): seq<Job<M>> {
    if processed == [] then []
    else
      RanJobs(processed[..|processed| - 1])
      + (if processed[|processed| - 1].fate.Ran? then [processed[|processed| - 1].job] else [])
  }

  ghost function CountFate<M>(processed: seq<Processed<M>>, fate: Fate): nat {
    if processed == [] then 0
    else CountFate(processed[..|processed| - 1], fate) + (if processed[|processed| - 1].fate == fate then 1 else 0)
  }

  /** Where the panics are among the processed jobs. */
  ghost function PanicsAt<M>(processed: seq<Processed<M>>): seq<nat> {
    if processed == [] then []
    else
      PanicsAt(processed[..|processed| - 1])
      + (if processed[|processed| - 1].fate == Ran(Panicked) then LastAt(processed) else [])
  }

  /** Jobs of the last snapshot the poller has not offered. */
  ghost function Unoffered<M>(poller: Poller<M>): seq<Job<M>> {
    match poller
    case Batch(pending) => pending
    case Refused(_, pending) => pending
    case PollerExited(_, lost) => lost
    case _ => []
  }

  ghost function CurrentJob<M>(d: Dispatcher<M>): seq<Job<M>> {
    if d.Beginning? || d.InCallback? then [d.job] else []
  }

  ghost function CallbackJob<M>(d: Dispatcher<M>): seq<Job<M>> {
    if d.InCallback? then [d.job] else []
  }

  ghost function TokenJob<M>(d: Dispatcher<M>): seq<Job<M>> {
    if d.InCallback? && !d.task.Finished? then [d.job] else []
  }

  ghost function Bit(b: bool): nat { if b then 1 else 0 }

  // ---------- The invariant ----------

  /** Offered is the flattening of the snapshots, up to what the poller still has in hand. */
  ghost predicate OffersOk<M>(snapshots: seq<Snapshot<M>>, offers: seq<Offer<M>>, unoffered: seq<Job<M>>) {
    Flatten(snapshots) == OfferedJobs(offers) + unoffered
  }

  /** What was sent is processed, then current, then queued. */
  ghost predicate QueueOk<M>(offers: seq<Offer<M>>, processed: seq<Processed<M>>, current: seq<Job<M>>,
                             queue: seq<Job<M>>)
  {
    SentJobs(offers) == ProcessedJobs(processed) + current + queue
  }

  /** Callbacks ran one after the other, and each one that is over has given its token back. */
  ghost predicate StartsOk<M>(started: seq<Job<M>>, released: seq<Job<M>>, processed: seq<Processed<M>>,
                              callback: seq<Job<M>>, token: seq<Job<M>>)
  {
    && started == RanJobs(processed) + callback
    && started == released + token
  }

  /** Each refused offer is one backpressure event, recorded or about to be. */
  ghost predicate DropsOk<M>(offers: seq<Offer<M>>, drops: nat, refusing: bool) {
    |offers| == |SentJobs(offers)| + drops + Bit(refusing)
  }

  /** The panics reported, or about to be: positions in `processed`. */
  ghost function Logged<S, M>(s: State<S, M>): seq<nat> {
    if s.dispatcher.Recording? then s.history.reported + LastAt(s.history.processed) else s.history.reported
  }

  /** The job processed last has panicked, is joined, and is not yet judged. */
  ghost predicate Unjudged<M>(d: Dispatcher<M>) {
    d == Judging(Panicked)
  }

  /** `logged`, and the job processed last if it is still to be judged. */
  ghost function WithLast<M>(logged: seq<nat>, processed: seq<Processed<M>>, unjudged: bool): seq<nat> {
    if unjudged then logged + LastAt(processed) else logged
  }

  /** Panics are reported once each, in order; while the flag is down none is left out and nothing is cancelled. */
  ghost predicate PanicsOk<M>(processed: seq<Processed<M>>, logged: seq<nat>, unjudged: bool, stopped: bool) {
    && logged <= PanicsAt(processed)
    && (!stopped ==>
          PanicsAt(processed) == WithLast(logged, processed, unjudged) && CountFate(processed, Ran(Cancelled)) == 0)
  }

  /** Indices of the samples among the first `n` that decode to a message of another origin. */
  ghost function AcceptedUpTo<S, M>(c: Config<S, M>, taken: seq<Option<S>>, n: nat): seq<nat>
    requires n <= |taken|
  {
    if n == 0 then [] else AcceptedUpTo(c, taken, n - 1) + (if Accepted(c, taken[n - 1]) then [n - 1] else [])
  }

  ghost function MalformedUpTo<S, M>(c: Config<S, M>, taken: seq<Option<S>>, n: nat): nat
    requires n <= |taken|
  {
    if n == 0 then 0 else MalformedUpTo(c, taken, n - 1) + Bit(Malformed(c, taken[n - 1]))
  }

  ghost function SnapshotSamples<M>(snapshots: seq<Snapshot<M>>): seq<nat> {
    if snapshots == [] then [] else SnapshotSamples(snapshots[..|snapshots| - 1]) + [snapshots[|snapshots| - 1].sample]
  }

  /** A snapshot holds the message its sample decodes to and exactly the listed entries that accept it. */
  ghost predicate SnapshotOk<S, M>(c: Config<S, M>, keys: seq<Key>, taken: seq<Option<S>>, snap: Snapshot<M>) {
    && snap.sample < |taken|
    && Accepted(c, taken[snap.sample])
    && snap.message == c.family.decode(taken[snap.sample].value).value
    && Increasing(snap.listed)
    && (forall i :: 0 <= i < |snap.listed| ==> snap.listed[i] < |keys|)
    && snap.chosen == Select(c.matches, keys, snap.listed, c.family.source(snap.message), c.family.sink(snap.message))
  }

  /** One snapshot per accepted sample, in take order; own and empty samples leave no trace. */
  ghost predicate SnapshotsOk<S, M>(c: Config<S, M>, keys: seq<Key>, taken: seq<Option<S>>, examined: nat,
                                    snapshots: seq<Snapshot<M>>)
  {
    && examined <= |taken|
    && SnapshotSamples(snapshots) == AcceptedUpTo(c, taken, examined)
    && forall i :: 0 <= i < |snapshots| ==> SnapshotOk(c, keys, taken, snapshots[i])
  }

  ghost predicate MalformedOk<S, M>(c: Config<S, M>, taken: seq<Option<S>>, examined: nat, malformed: nat) {
    && examined <= |taken|
    && malformed == MalformedUpTo(c, taken, examined)
  }

  ghost predicate WorkersOk<S, M>(s: State<S, M>) {
    && Count(s.health, WorkerPanic) == Bit(PollerJoined(s.closing) && s.poller.PollerExited? && s.poller.panicked)
    && Count(s.health, Teardown) == 0
    && Count(s.health, Dds) == s.history.failedTakes
    && Count(s.health, CallbackPanic) == |s.history.reported|
  }

  ghost predicate JobsOk<S, M>(c: Config<S, M>, s: State<S, M>) {
    var h := s.history;
    && OffersOk(h.snapshots, h.offers, Unoffered(s.poller))
    && QueueOk(h.offers, h.processed, CurrentJob(s.dispatcher), s.queue)
    && |s.queue| <= c.capacity
    && StartsOk(h.started, h.released, h.processed, CallbackJob(s.dispatcher), TokenJob(s.dispatcher))
    && DropsOk(h.offers, Count(s.health, DispatchBackpressure), s.poller.Refused?)
    && PanicsOk(h.processed, Logged(s), Unjudged(s.dispatcher), s.stopped)
    && SnapshotsOk(c, s.registry.keys, h.taken, h.examined, h.snapshots)
    && MalformedOk(c, h.taken, h.examined, Count(s.health, MalformedSample))
    && WorkersOk(s)
  }

  // ---------- Appending to a log ----------

  lemma FlattenAppend<M>(snapshots: seq<Snapshot<M>>, snap: Snapshot<M>)
    ensures Flatten(snapshots + [snap]) == Flatten(snapshots) + JobsFor(snap.sample, snap.message, snap.chosen)
    ensures SnapshotSamples(snapshots + [snap]) == SnapshotSamples(snapshots) + [snap.sample]
  {
    assert (snapshots + [snap])[..|snapshots|] == snapshots;
  }

  lemma OffersAppend<M>(offers: seq<Offer<M>>, offer: Offer<M>)
    ensures OfferedJobs(offers + [offer]) == OfferedJobs(offers) + [offer.job]
    ensures SentJobs(offers + [offer]) == SentJobs(offers) + (if offer.sent then [offer.job] else [])
  {
    assert (offers + [offer])[..|offers|] == offers;
  }

  lemma ProcessedAppend<M>(processed: seq<Processed<M>>, p: Processed<M>)
    ensures ProcessedJobs(processed + [p]) == ProcessedJobs(processed) + [p.job]
    ensures RanJobs(processed + [p]) == RanJobs(processed) + (if p.fate.Ran? then [p.job] else [])
    ensures forall fate :: CountFate(processed + [p], fate) == CountFate(processed, fate) + Bit(p.fate == fate)
    ensures PanicsAt(processed + [p]) == PanicsAt(processed) + (if p.fate == Ran(Panicked) then [|processed|] else [])
  {
    assert (processed + [p])[..|processed|] == processed;
  }

  lemma {:induction false} TakenAppend<S, M>(c: Config<S, M>, taken: seq<Option<S>>, more: seq<Option<S>>, n: nat)
    requires n <= |taken|
    ensures AcceptedUpTo(c, taken + more, n) == AcceptedUpTo(c, taken, n)
    ensures MalformedUpTo(c, taken + more, n) == MalformedUpTo(c, taken, n)
  {
    if n > 0 {
      TakenAppend(c, taken, more, n - 1);
      assert (taken + more)[n - 1] == taken[n - 1];
    }
  }

  /** Old snapshots stay right when registrations are created or samples are taken. */
  lemma SnapshotsStable<S, M>(c: Config<S, M>, keys: seq<Key>, newKeys: seq<Key>,
                              taken: seq<Option<S>>, more: seq<Option<S>>, examined: nat, snapshots: seq<Snapshot<M>>)
    requires SnapshotsOk(c, keys, taken, examined, snapshots)
    ensures SnapshotsOk(c, keys + newKeys, taken + more, examined, snapshots)
  {
    TakenAppend(c, taken, more, examined);
    forall i | 0 <= i < |snapshots|
      ensures SnapshotOk(c, keys + newKeys, taken + more, snapshots[i])
    {
      var snap := snapshots[i];
      SelectStable(c.matches, keys, newKeys, snap.listed, c.family.source(snap.message), c.family.sink(snap.message));
    }
  }

  // ---------- Every step keeps it ----------

  /** Steps that leave the logs, the queue and the health log alone. */
  lemma JobsFrame<S, M>(c: Config<S, M>, s: State<S, M>, t: State<S, M>)
    requires JobsOk(c, s)
    requires t.history == s.history.(retired := t.history.retired, api := t.history.api)
    requires t.registry.keys == s.registry.keys && t.poller == s.poller && t.queue == s.queue && t.health == s.health
    requires CurrentJob(t.dispatcher) == CurrentJob(s.dispatcher)
             && CallbackJob(t.dispatcher) == CallbackJob(s.dispatcher)
    requires TokenJob(t.dispatcher) == TokenJob(s.dispatcher)
    requires t.dispatcher.Recording? == s.dispatcher.Recording?
    requires Unjudged(t.dispatcher) == Unjudged(s.dispatcher)
    requires s.stopped ==> t.stopped
    requires PollerJoined(t.closing) == PollerJoined(s.closing)
    ensures JobsOk(c, t)
  {
    hide SnapshotsOk, MalformedOk, OffersOk, DropsOk;
  }

  /** A new registration changes no snapshot. */
  lemma JobsKeys<S, M>(c: Config<S, M>, s: State<S, M>, key: Key)
    requires JobsOk(c, s)
    ensures JobsOk(c, s.(registry := s.registry.Insert(key)))
  {
    SnapshotsStable(c, s.registry.keys, [key], s.history.taken, [], s.history.examined, s.history.snapshots);
    assert s.history.taken + [] == s.history.taken;
    hide SnapshotsOk, MalformedOk, OffersOk, DropsOk, QueueOk, StartsOk, PanicsOk, Count;
  }

  lemma JobsRegister<S, M>(c: Config<S, M>, s: State<S, M>, key: Key)
    requires JobsOk(c, s) && DoRegister(s, key).Some?
    ensures JobsOk(c, DoRegister(s, key).value)
  {
    JobsKeys(c, s, key);
    hide JobsOk, Registry.Find;
    if s.registry.Find(key).Some? {
      JobsFrame(c, s, DoRegister(s, key).value);
    } else {
      JobsFrame(c, s.(registry := s.registry.Insert(key)), DoRegister(s, key).value);
    }
  }

  lemma JobsApi<S, M>(c: Config<S, M>, s: State<S, M>, step: ApiStep)
    requires JobsOk(c, s) && ApiNext(s, step).Some?
    ensures JobsOk(c, ApiNext(s, step).value)
  {
    hide JobsOk;
    if step.Register? {
      JobsRegister(c, s, step.key);
    } else {
      JobsFrame(c, s, ApiNext(s, step).value);
    }
  }

  lemma MalformedStable<S, M>(c: Config<S, M>, taken: seq<Option<S>>, more: seq<Option<S>>, examined: nat,
                              malformed: nat)
    requires MalformedOk(c, taken, examined, malformed)
    ensures MalformedOk(c, taken + more, examined, malformed)
  {
    TakenAppend(c, taken, more, examined);
  }

  /** A step of the poller keeps the logs if it keeps what the poller writes. */
  lemma JobsByPoller<S, M>(c: Config<S, M>, s: State<S, M>, t: State<S, M>)
    requires JobsOk(c, s)
    requires t.registry == s.registry && t.dispatcher == s.dispatcher && t.closing == s.closing
             && t.stopped == s.stopped
    requires t.history == s.history.(taken := t.history.taken, examined := t.history.examined,
                                     snapshots := t.history.snapshots, offers := t.history.offers,
                                     failedTakes := t.history.failedTakes)
    requires !s.poller.PollerExited? && (t.poller.PollerExited? ==> !PollerJoined(t.closing))
    requires OffersOk(t.history.snapshots, t.history.offers, Unoffered(t.poller))
    requires QueueOk(t.history.offers, t.history.processed, CurrentJob(t.dispatcher), t.queue)
    requires |t.queue| <= c.capacity
    requires DropsOk(t.history.offers, Count(t.health, DispatchBackpressure), t.poller.Refused?)
    requires SnapshotsOk(c, t.registry.keys, t.history.taken, t.history.examined, t.history.snapshots)
    requires MalformedOk(c, t.history.taken, t.history.examined, Count(t.health, MalformedSample))
    requires Count(t.health, WorkerPanic) == Count(s.health, WorkerPanic)
    requires Count(t.health, CallbackPanic) == Count(s.health, CallbackPanic)
    requires Count(t.health, Teardown) == Count(s.health, Teardown)
    requires Count(t.health, Dds) == t.history.failedTakes
    ensures JobsOk(c, t)
  {
    assert Logged(t) == Logged(s);
    hide OffersOk, QueueOk, DropsOk, SnapshotsOk, MalformedOk, StartsOk, PanicsOk, Logged, Count;
  }

  lemma JobsTake<S, M>(c: Config<S, M>, s: State<S, M>, result: TakeResult<S>)
    requires JobsOk(c, s) && DoTake(c, s, result).Some?
    ensures JobsOk(c, DoTake(c, s, result).value)
  {
    var h, t := s.history, DoTake(c, s, result).value;
    hide OffersOk, QueueOk, DropsOk, SnapshotsOk, MalformedOk, StartsOk, PanicsOk, Count;
    CountAppend(s.health, Dds);
    if result.Samples? {
      MalformedStable(c, h.taken, result.samples, h.examined, Count(s.health, MalformedSample));
      SnapshotsStable(c, s.registry.keys, [], h.taken, result.samples, h.examined, h.snapshots);
      assert s.registry.keys + [] == s.registry.keys;
    }
    JobsByPoller(c, s, t);
  }

  /** Offering the first pending job, whether it is sent or refused. */
  lemma OfferMoves<M>(snapshots: seq<Snapshot<M>>, offers: seq<Offer<M>>, pending: seq<Job<M>>, drops: nat, sent: bool)
    requires OffersOk(snapshots, offers, pending) && DropsOk(offers, drops, false) && pending != []
    ensures OffersOk(snapshots, offers + [Offer(pending[0], sent)], pending[1..])
    ensures DropsOk(offers + [Offer(pending[0], sent)], drops, !sent)
  {
    OffersAppend(offers, Offer(pending[0], sent));
    assert OfferedJobs(offers) + pending == OfferedJobs(offers) + [pending[0]] + pending[1..];
  }

  lemma OfferQueues<M>(offers: seq<Offer<M>>, processed: seq<Processed<M>>, current: seq<Job<M>>, queue: seq<Job<M>>,
                       offer: Offer<M>)
    requires QueueOk(offers, processed, current, queue)
    ensures QueueOk(offers + [offer], processed, current, if offer.sent then queue + [offer.job] else queue)
  {
    OffersAppend(offers, offer);
    assert ProcessedJobs(processed) + current + (queue + [offer.job])
           == ProcessedJobs(processed) + current + queue + [offer.job];
  }

  lemma JobsSubmit<S, M>(c: Config<S, M>, s: State<S, M>)
    requires JobsOk(c, s) && DoSubmit(c, s).Some?
    ensures JobsOk(c, DoSubmit(c, s).value)
  {
    var h, t := s.history, DoSubmit(c, s).value;
    hide OffersOk, QueueOk, DropsOk, SnapshotsOk, MalformedOk, StartsOk, PanicsOk, Count;
    var sent := |s.queue| < c.capacity && !s.dispatcher.DispatcherExited?;
    OfferMoves(h.snapshots, h.offers, s.poller.pending, Count(s.health, DispatchBackpressure), sent);
    OfferQueues(h.offers, h.processed, CurrentJob(s.dispatcher), s.queue, Offer(s.poller.pending[0], sent));
    JobsByPoller(c, s, t);
  }

  /** The snapshot of an accepted sample. */
  lemma SnapshotTaken<S, M>(c: Config<S, M>, r: Registry, taken: seq<Option<S>>, examined: nat,
                            snapshots: seq<Snapshot<M>>, offers: seq<Offer<M>>, malformed: nat)
    requires r.Valid() && examined < |taken| && Accepted(c, taken[examined])
    requires OffersOk(snapshots, offers, []) && SnapshotsOk(c, r.keys, taken, examined, snapshots)
    requires MalformedOk(c, taken, examined, malformed)
    ensures var message := c.family.decode(taken[examined].value).value;
            var chosen := Chosen(c, r, message);
            var snap := Snapshot(examined, message, r.entries, chosen);
            && OffersOk(snapshots + [snap], offers, JobsFor(examined, message, chosen))
            && SnapshotsOk(c, r.keys, taken, examined + 1, snapshots + [snap])
            && MalformedOk(c, taken, examined + 1, malformed)
  {
    var message := c.family.decode(taken[examined].value).value;
    var snap := Snapshot(examined, message, r.entries, Chosen(c, r, message));
    FlattenAppend(snapshots, snap);
    assert OfferedJobs(offers) + [] == OfferedJobs(offers);
    assert SnapshotOk(c, r.keys, taken, snap);
  }

  /** A sample that is no message of another origin. */
  lemma SampleSkipped<S, M>(c: Config<S, M>, keys: seq<Key>, taken: seq<Option<S>>, examined: nat,
                            snapshots: seq<Snapshot<M>>, malformed: nat)
    requires examined < |taken| && !Accepted(c, taken[examined])
    requires SnapshotsOk(c, keys, taken, examined, snapshots) && MalformedOk(c, taken, examined, malformed)
    ensures SnapshotsOk(c, keys, taken, examined + 1, snapshots)
    ensures MalformedOk(c, taken, examined + 1, malformed + Bit(Malformed(c, taken[examined])))
  {
    assert AcceptedUpTo(c, taken, examined) + [] == AcceptedUpTo(c, taken, examined);
  }

  lemma JobsExamineAccepted<S, M>(c: Config<S, M>, s: State<S, M>)
    requires s.registry.Valid() && JobsOk(c, s) && DoExamine(c, s).Some?
    requires Accepted(c, s.history.taken[s.history.examined])
    ensures JobsOk(c, DoExamine(c, s).value)
  {
    var h, t := s.history, DoExamine(c, s).value;
    hide OffersOk, DropsOk, QueueOk, SnapshotsOk, MalformedOk, StartsOk, PanicsOk, Count, Chosen, JobsFor,
        Registry.Valid;
    SnapshotTaken(c, s.registry, h.taken, h.examined, h.snapshots, h.offers, Count(s.health, MalformedSample));
    hide Accepted;
    JobsByPoller(c, s, t);
  }

  lemma JobsExamineSkipped<S, M>(c: Config<S, M>, s: State<S, M>)
    requires JobsOk(c, s) && DoExamine(c, s).Some?
    requires !Accepted(c, s.history.taken[s.history.examined])
    ensures JobsOk(c, DoExamine(c, s).value)
  {
    var h, t := s.history, DoExamine(c, s).value;
    hide OffersOk, DropsOk, QueueOk, SnapshotsOk, MalformedOk, StartsOk, PanicsOk, Count, Accepted, Malformed;
    CountAppend(s.health, MalformedSample);
    SampleSkipped(c, s.registry.keys, h.taken, h.examined, h.snapshots, Count(s.health, MalformedSample));
    JobsByPoller(c, s, t);
  }

  lemma JobsExamine<S, M>(c: Config<S, M>, s: State<S, M>)
    requires s.registry.Valid() && JobsOk(c, s) && DoExamine(c, s).Some?
    ensures JobsOk(c, DoExamine(c, s).value)
  {
    hide JobsOk, Registry.Valid, Accepted;
    if Accepted(c, s.history.taken[s.history.examined]) {
      JobsExamineAccepted(c, s);
    } else {
      JobsExamineSkipped(c, s);
    }
  }

  lemma JobsRecordRefusal<S, M>(c: Config<S, M>, s: State<S, M>)
    requires JobsOk(c, s) && DoRecordRefusal(s).Some?
    ensures JobsOk(c, DoRecordRefusal(s).value)
  {
    hide OffersOk, QueueOk, SnapshotsOk, MalformedOk, StartsOk, PanicsOk, Count;
    CountAppend(s.health, DispatchBackpressure);
    JobsByPoller(c, s, DoRecordRefusal(s).value);
  }

  lemma JobsPoller<S, M>(c: Config<S, M>, s: State<S, M>, step: PollerStep<S>)
    requires s.registry.Valid() && ControlOk(s) && JobsOk(c, s) && PollerNext(c, s, step).Some?
    ensures JobsOk(c, PollerNext(c, s, step).value)
  {
    hide OffersOk, DropsOk, QueueOk, SnapshotsOk, MalformedOk, StartsOk, PanicsOk, DoTake, DoSubmit, DoExamine;
    match step
    case Take(result) => JobsTake(c, s, result);
    case Advance =>
      if s.poller.Batch? && s.poller.pending != [] {
        JobsSubmit(c, s);
      } else if s.history.examined < |s.history.taken| {
        JobsExamine(c, s);
      }
    case RecordRefusal => JobsRecordRefusal(c, s);
    case _ =>
  }

  /** A job leaves the dispatcher with its fate. */
  lemma JobLeaves<M>(offers: seq<Offer<M>>, processed: seq<Processed<M>>, job: Job<M>, fate: Fate, queue: seq<Job<M>>,
                     started: seq<Job<M>>, released: seq<Job<M>>)
    requires QueueOk(offers, processed, [job], queue)
    requires StartsOk(started, released, processed, if fate.Ran? then [job] else [], [])
    ensures QueueOk(offers, processed + [Processed(job, fate)], [], queue)
    ensures StartsOk(started, released, processed + [Processed(job, fate)], [], [])
  {
    ProcessedAppend(processed, Processed(job, fate));
    assert ProcessedJobs(processed) + [job] + [] + queue == ProcessedJobs(processed) + [job] + queue;
  }

  /** A step of the dispatcher keeps the logs if it keeps what the dispatcher writes. */
  lemma JobsByDispatcher<S, M>(c: Config<S, M>, s: State<S, M>, t: State<S, M>)
    requires JobsOk(c, s)
    requires t.registry.keys == s.registry.keys && t.poller == s.poller && t.closing == s.closing
    requires t.history == s.history.(started := t.history.started, processed := t.history.processed,
                                     reported := t.history.reported)
    requires QueueOk(t.history.offers, t.history.processed, CurrentJob(t.dispatcher), t.queue)
    requires |t.queue| <= c.capacity
    requires StartsOk(t.history.started, t.history.released, t.history.processed,
                      CallbackJob(t.dispatcher), TokenJob(t.dispatcher))
    requires PanicsOk(t.history.processed, Logged(t), Unjudged(t.dispatcher), t.stopped)
    requires forall kind :: kind != CallbackPanic ==> Count(t.health, kind) == Count(s.health, kind)
    requires Count(t.health, CallbackPanic) == |t.history.reported|
    ensures JobsOk(c, t)
  {
    hide OffersOk, QueueOk, DropsOk, SnapshotsOk, MalformedOk, StartsOk, PanicsOk, Logged, Count;
  }

  lemma JobsReceive<S, M>(c: Config<S, M>, s: State<S, M>)
    requires JobsOk(c, s) && DoReceive(s).Some?
    ensures JobsOk(c, DoReceive(s).value)
  {
    hide OffersOk, DropsOk, SnapshotsOk, MalformedOk, StartsOk, PanicsOk, Count, ProcessedJobs, SentJobs;
    var done := ProcessedJobs(s.history.processed);
    assert done + [] + s.queue == done + [s.queue[0]] + s.queue[1..];
    JobsByDispatcher(c, s, DoReceive(s).value);
  }

  /** A job that is skipped, or whose callback has been joined, adds to the panics exactly if it panicked. */
  lemma PanicsLeave<M>(processed: seq<Processed<M>>, logged: seq<nat>, job: Job<M>, fate: Fate, stopped: bool)
    requires PanicsOk(processed, logged, false, stopped) && (fate == Ran(Cancelled) ==> stopped)
    ensures PanicsOk(processed + [Processed(job, fate)], logged, fate == Ran(Panicked), stopped)
  {
    ProcessedAppend(processed, Processed(job, fate));
    hide PanicsAt, CountFate;
  }

  /** A panic judged while the flag is down will be recorded; the flag up, the judgement drops it. */
  lemma PanicsJudged<M>(processed: seq<Processed<M>>, logged: seq<nat>, unjudged: bool, stopped: bool)
    requires PanicsOk(processed, logged, unjudged, stopped)
    ensures stopped ==> PanicsOk(processed, logged, false, stopped)
    ensures !stopped ==> PanicsOk(processed, WithLast(logged, processed, unjudged), false, stopped)
  {
    hide PanicsAt, CountFate;
  }

  lemma StartsBegin<M>(started: seq<Job<M>>, released: seq<Job<M>>, processed: seq<Processed<M>>, job: Job<M>)
    requires StartsOk(started, released, processed, [], [])
    ensures StartsOk(started + [job], released, processed, [job], [job])
  {
    assert RanJobs(processed) + [] == RanJobs(processed);
    assert released + [] == released;
  }

  lemma JobsSkip<S, M>(c: Config<S, M>, s: State<S, M>)
    requires JobsOk(c, s) && DoBegin(s).Some? && s.dispatcher.job.reg !in s.registry.active
    ensures JobsOk(c, DoBegin(s).value)
  {
    var h := s.history;
    hide OffersOk, DropsOk, SnapshotsOk, MalformedOk, QueueOk, StartsOk, PanicsOk, Count;
    JobLeaves(h.offers, h.processed, s.dispatcher.job, Skipped, s.queue, h.started, h.released);
    PanicsLeave(h.processed, h.reported, s.dispatcher.job, Skipped, s.stopped);
    JobsByDispatcher(c, s, DoBegin(s).value);
  }

  lemma JobsBegin<S, M>(c: Config<S, M>, s: State<S, M>)
    requires JobsOk(c, s) && DoBegin(s).Some?
    ensures JobsOk(c, DoBegin(s).value)
  {
    var h := s.history;
    if s.dispatcher.job.reg !in s.registry.active {
      hide JobsOk;
      JobsSkip(c, s);
    } else {
      hide OffersOk, DropsOk, SnapshotsOk, MalformedOk, QueueOk, StartsOk, PanicsOk, Count;
      StartsBegin(h.started, h.released, h.processed, s.dispatcher.job);
      JobsByDispatcher(c, s, DoBegin(s).value);
    }
  }

  /** What a join or a judgement can rely on. */
  lemma JoinFacts<S, M>(s: State<S, M>)
    requires ControlOk(s)
    ensures DoJoin(s).Some? && s.dispatcher.task.outcome == Cancelled ==> s.stopped
    ensures s.dispatcher.Judging? && !s.stopped ==> Unjudged(s.dispatcher)
    ensures s.dispatcher.Recording? ==> |LastAt(s.history.processed)| == 1
  {
  }

  lemma JobsJoin<S, M>(c: Config<S, M>, s: State<S, M>)
    requires ControlOk(s) && JobsOk(c, s) && DoJoin(s).Some?
    ensures JobsOk(c, DoJoin(s).value)
  {
    hide ControlOk;
    JoinFacts(s);
    var h := s.history;
    var fate := Ran(s.dispatcher.task.outcome);
    hide OffersOk, DropsOk, SnapshotsOk, MalformedOk, QueueOk, StartsOk, PanicsOk, Count;
    JobLeaves(h.offers, h.processed, s.dispatcher.job, fate, s.queue, h.started, h.released);
    PanicsLeave(h.processed, h.reported, s.dispatcher.job, fate, s.stopped);
    JobsByDispatcher(c, s, DoJoin(s).value);
  }

  lemma JobsRecordPanic<S, M>(c: Config<S, M>, s: State<S, M>)
    requires ControlOk(s) && JobsOk(c, s) && DoRecordPanic(s).Some?
    ensures JobsOk(c, DoRecordPanic(s).value)
  {
    hide ControlOk;
    JoinFacts(s);
    CountAppend(s.health, CallbackPanic);
    hide OffersOk, DropsOk, SnapshotsOk, MalformedOk, QueueOk, StartsOk, PanicsOk, Count, LastAt;
    JobsByDispatcher(c, s, DoRecordPanic(s).value);
  }

  lemma JobsJudge<S, M>(c: Config<S, M>, s: State<S, M>)
    requires ControlOk(s) && JobsOk(c, s) && DoJudge(s).Some?
    ensures JobsOk(c, DoJudge(s).value)
  {
    hide ControlOk;
    JoinFacts(s);
    hide OffersOk, DropsOk, SnapshotsOk, MalformedOk, QueueOk, StartsOk, PanicsOk, Count, LastAt;
    PanicsJudged(s.history.processed, s.history.reported, Unjudged(s.dispatcher), s.stopped);
    JobsByDispatcher(c, s, DoJudge(s).value);
  }

  lemma JobsDispatcher<S, M>(c: Config<S, M>, s: State<S, M>, step: DispatcherStep)
    requires ControlOk(s) && JobsOk(c, s) && DispatcherNext(s, step).Some?
    ensures JobsOk(c, DispatcherNext(s, step).value)
  {
    hide JobsOk, ControlOk;
    match step
    case Receive => JobsReceive(c, s);
    case Begin => JobsBegin(c, s);
    case Join => JobsJoin(c, s);
    case Judge => JobsJudge(c, s);
    case RecordPanic => JobsRecordPanic(c, s);
    case _ => JobsFrame(c, s, DispatcherNext(s, step).value);
  }

  /** The token goes back: the callback counts as released. */
  lemma StartsRelease<M>(started: seq<Job<M>>, released: seq<Job<M>>, processed: seq<Processed<M>>, job: Job<M>)
    requires StartsOk(started, released, processed, [job], [job])
    ensures StartsOk(started, released + [job], processed, [job], [])
  {
    assert (released + [job]) + [] == released + [job];
    hide RanJobs;
  }

  lemma JobsRelease<S, M>(c: Config<S, M>, s: State<S, M>)
    requires JobsOk(c, s) && DoRelease(s).Some?
    ensures JobsOk(c, DoRelease(s).value)
  {
    hide OffersOk, DropsOk, SnapshotsOk, MalformedOk, QueueOk, StartsOk, PanicsOk, Count, LastAt, WakeCalls;
    StartsRelease(s.history.started, s.history.released, s.history.processed, s.dispatcher.job);
    assert PollerJoined(DoRelease(s).value.closing) == PollerJoined(s.closing);
    hide WakeClosing;
  }

  lemma JobsTask<S, M>(c: Config<S, M>, s: State<S, M>, step: TaskStep)
    requires JobsOk(c, s) && TaskNext(s, step).Some?
    ensures JobsOk(c, TaskNext(s, step).value)
  {
    hide JobsOk, DoRelease;
    if step == ReleaseToken {
      JobsRelease(c, s);
    } else {
      JobsFrame(c, s, TaskNext(s, step).value);
    }
  }

  lemma JobsJoinPoller<S, M>(c: Config<S, M>, s: State<S, M>)
    requires ControlOk(s) && JobsOk(c, s) && DoJoinPoller(s).Some?
    ensures JobsOk(c, DoJoinPoller(s).value)
  {
    hide ControlOk, SnapshotsOk, OffersOk, QueueOk, StartsOk, DropsOk, MalformedOk, PanicsOk, Count, LastAt;
    CountAppend(s.health, WorkerPanic);
  }

  lemma JobsClose<S, M>(c: Config<S, M>, s: State<S, M>, step: CloseStep)
    requires ControlOk(s) && JobsOk(c, s) && CloseNext(s, step).Some?
    ensures JobsOk(c, CloseNext(s, step).value)
  {
    hide JobsOk, ControlOk, DoJoinPoller;
    if step == JoinPoller {
      JobsJoinPoller(c, s);
    } else {
      JobsFrame(c, s, CloseNext(s, step).value);
    }
  }
}
