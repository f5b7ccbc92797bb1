/**
 Which callbacks run, in which order, and how every job is accounted for, in every reachable state.
 */
module Ordering {
  import opened Wrappers
  import opened RegistryModel
  import opened Health
  import opened Protocol
  import opened Safety
  import opened Delivery
  import opened Invariant
  import opened Unregistering

  // ---------- Conservation ----------

  lemma {:induction false} FatesSum<M>(processed: seq<Processed<M>>)
    ensures |processed| == CountFate(processed, Skipped) + CountFate(processed, Ran(Completed))
                           + CountFate(processed, Ran(Panicked)) + CountFate(processed, Ran(Cancelled))
    ensures |ProcessedJobs(processed)| == |processed|
    ensures |RanJobs(processed)| == |processed| - CountFate(processed, Skipped)
  {
    if processed != [] {
      FatesSum(processed[..|processed| - 1]);
      match processed[|processed| - 1].fate
      case Skipped =>
      case Ran(Completed) =>
      case Ran(Panicked) =>
      case Ran(Cancelled) =>
    }
  }

  /** Every job ever offered is dropped, queued, current, skipped, completed, panicked or cancelled. */
  lemma JobConservation<S(!new), M>(c: Config<S, M>, s: State<S, M>)
    requires Reachable(c, s)
    ensures var done := s.history.processed;
            |s.history.offers| == Count(s.health, DispatchBackpressure) + Bit(s.poller.Refused?)
                                  + |s.queue| + |CurrentJob(s.dispatcher)|
                                  + CountFate(done, Skipped) + CountFate(done, Ran(Completed))
                                  + CountFate(done, Ran(Panicked)) + CountFate(done, Ran(Cancelled))
    ensures |s.queue| <= c.capacity
  {
    InvReachable(c, s);
    hide Reachable;
    FatesSum(s.history.processed);
    hide ControlOk, RegsOk, SnapshotsOk, MalformedOk;
  }

  /** The channel never reports a lost receiver, and it refuses a job only when it is full. */
  lemma SubmitRefusesOnlyWhenFull<S(!new), M>(c: Config<S, M>, s: State<S, M>)
    requires Reachable(c, s) && DoSubmit(c, s).Some?
    ensures !s.dispatcher.DispatcherExited?
    ensures DoSubmit(c, s).value.poller.Refused? <==> |s.queue| == c.capacity
    ensures DoSubmit(c, s).value.poller.Refused? ==> DoSubmit(c, s).value.poller.why == Full
  {
    InvReachable(c, s);
    hide Reachable;
    hide RegsOk;
  }

  // ---------- Tokens ----------

  /**
   The in-flight counts of all generations together are the number of callbacks that have begun and not
   given their token back, which is one exactly while the current task owns a token: callbacks of one
   transport never overlap.
   */
  lemma SerialDelivery<S(!new), M>(c: Config<S, M>, s: State<S, M>)
    requires Reachable(c, s)
    ensures |s.registry.tokens| == |s.history.started| - |s.history.released|
    ensures |s.registry.tokens| == Bit(s.dispatcher.InCallback? && !s.dispatcher.task.Finished?)
    ensures forall id :: s.registry.tokens[id] == Bit(Holder(s.dispatcher) == Some(id))
    ensures s.history.released <= s.history.started
  {
    InvReachable(c, s);
    hide Reachable;
    hide ControlOk, OffersOk, QueueOk, DropsOk, PanicsOk, SnapshotsOk, MalformedOk;
  }

  // ---------- Panics ----------

  lemma IncreasingSnoc(ids: seq<nat>, last: nat)
    requires Increasing(ids) && forall id :: id in ids ==> id < last
    ensures Increasing(ids + [last])
    ensures forall id :: id in ids + [last] <==> id in ids || id == last
  {
    assert forall k :: 0 <= k < |ids| ==> ids[k] in ids;
  }

  /** `PanicsAt` lists exactly the positions of the panics, each once. */
  lemma {:induction false} PanicsAtExact<M>(processed: seq<Processed<M>>)
    ensures Increasing(PanicsAt(processed))
    ensures forall i :: i in PanicsAt(processed) <==> 0 <= i < |processed| && processed[i].fate == Ran(Panicked)
    ensures |PanicsAt(processed)| == CountFate(processed, Ran(Panicked))
  {
    if processed != [] {
      var front, last := processed[..|processed| - 1], processed[|processed| - 1];
      PanicsAtExact(front);
      var before := PanicsAt(front);
      assert PanicsAt(processed) == before + if last.fate == Ran(Panicked) then [|front|] else [];
      hide PanicsAt, Increasing;
      IncreasingSnoc(before, |front|);
      assert before + [] == before;
    }
  }

  lemma PrefixMembers(a: seq<nat>, b: seq<nat>)
    requires a <= b && Increasing(b)
    ensures Increasing(a) && forall i :: i in a ==> i in b
  {
    assert forall k :: 0 <= k < |a| ==> a[k] == b[k];
  }

  /**
   The health log names callbacks that panicked, each once and in order, and never a cancelled or a completed
   one. While the flag is down it names all of them, but for one that is joined and not yet judged; then
   nothing is cancelled either.
   */
  lemma PanicAccounting<S(!new), M>(c: Config<S, M>, s: State<S, M>)
    requires Reachable(c, s)
    ensures Count(s.health, CallbackPanic) == |s.history.reported| && Increasing(Logged(s))
    ensures forall i :: i in Logged(s) ==> i < |s.history.processed| && s.history.processed[i].fate == Ran(Panicked)
    ensures !s.stopped ==>
            PanicsAt(s.history.processed) == WithLast(Logged(s), s.history.processed, Unjudged(s.dispatcher))
    ensures !s.stopped ==> CountFate(s.history.processed, Ran(Cancelled)) == 0
    ensures s.dispatcher.InCallback? && (AbortAsked(s.dispatcher.task) || Ended(s.dispatcher.task, Cancelled)) ==>
            s.stopped
  {
    InvReachable(c, s);
    hide Reachable;
    PanicsAtExact(s.history.processed);
    PrefixMembers(Logged(s), PanicsAt(s.history.processed));
    hide RegsOk, OffersOk, QueueOk, DropsOk, StartsOk, SnapshotsOk, MalformedOk, Logged, Unjudged, PanicsAt;
  }

  lemma DispatcherReportsNone<S, M>(s: State<S, M>, step: DispatcherStep)
    requires s.stopped && DispatcherNext(s, step).Some?
    ensures Logged(DispatcherNext(s, step).value) == Logged(s)
  {
    hide Aborted, LastAt;
  }

  lemma PanicFrozenNext<S, M>(c: Config<S, M>, s: State<S, M>, step: Step<S>, t: State<S, M>)
    requires s.stopped && Next(c, s, step) == Some(t)
    ensures t.stopped && Logged(t) == Logged(s)
  {
    hide ApiNext, PollerNext, DispatcherNext, TaskNext, CloseNext, LastAt;
    match step
    case Api(a) => var u := ApiWrites(s, a);
    case Poll(p) => var u := PollerWrites(c, s, p);
    case Dispatch(d) => var u := DispatcherWrites(s, d); DispatcherReportsNone(s, d);
    case Run(k) => var u := TaskWrites(s, k);
    case Close(k) => var u := CloseWrites(s, k);
  }

  /** Once the stop flag is up it is settled which callback panics are reported. */
  lemma {:induction false} PanicsFrozen<S, M>(c: Config<S, M>, s: State<S, M>, steps: seq<Step<S>>, t: State<S, M>)
    requires s.stopped && After(c, s, steps) == Some(t)
    ensures t.stopped && Logged(t) == Logged(s)
    decreases steps
  {
    hide Next;
    if steps != [] {
      var mid := Next(c, s, steps[0]).value;
      PanicFrozenNext(c, s, steps[0], mid);
      PanicsFrozen(c, mid, steps[1..], t);
    }
  }

  /** What is judged or recorded is the job processed last. */
  lemma JudgedJob<S(!new), M>(c: Config<S, M>, s: State<S, M>)
    requires Reachable(c, s) && (s.dispatcher.Judging? || s.dispatcher.Recording?)
    ensures |s.history.processed| > 0
  {
    InvReachable(c, s);
    hide RegsOk, JobsOk;
  }

  /** A position listed after all of `logged` is not among them. */
  lemma LastNotBefore(logged: seq<nat>, last: nat)
    requires Increasing(logged + [last])
    ensures forall i :: i in logged + [last] <==> i in logged || i == last
    ensures last !in logged
  {
    var all := logged + [last];
    assert forall k :: 0 <= k < |logged| ==> logged[k] == all[k] && all[k] < all[|logged|];
  }

  /** What the drop, once begun, can still report is what was reported, or about to be, when it began. */
  lemma LoggedAfterStop<S(!new), M>(c: Config<S, M>, s: State<S, M>, inside: bool, t: State<S, M>,
                                    steps: seq<Step<S>>, u: State<S, M>)
    requires Reachable(c, s) && DoStop(s, inside) == Some(t) && After(c, t, steps) == Some(u)
    ensures Logged(u) == Logged(s) && !s.stopped
    ensures |Logged(u)| == Count(u.health, CallbackPanic) + Bit(u.dispatcher.Recording?)
  {
    assert Logged(t) == Logged(s);
    hide Count;
    PanicsFrozen(c, t, steps, u);
    assert Next(c, s, Close(Stop(inside))) == Some(t);
    hide Next, After;
    ReachableNext(c, s, Close(Stop(inside)), t);
    ReachableAfter(c, t, steps, u);
    PanicAccounting(c, u);
    if u.dispatcher.Recording? {
      JudgedJob(c, u);
    }
    hide Reachable;
    InvReachable(c, s);
    hide RegsOk, JobsOk;
  }

  /**
   Exactly which panics joined before the stop flag are reported: in every continuation all of them are,
   except one that was joined and not yet judged when the flag went up.
   */
  lemma PanicsReportedExactly<S(!new), M>(c: Config<S, M>, s: State<S, M>, inside: bool, t: State<S, M>,
                                          steps: seq<Step<S>>, u: State<S, M>)
    requires Reachable(c, s) && DoStop(s, inside) == Some(t) && After(c, t, steps) == Some(u)
    ensures PanicsAt(s.history.processed) == WithLast(Logged(u), s.history.processed, Unjudged(s.dispatcher))
    ensures forall i: nat :: i < |s.history.processed| && s.history.processed[i].fate == Ran(Panicked) ==>
              (i in Logged(u) <==> !(Unjudged(s.dispatcher) && i == |s.history.processed| - 1))
    ensures Count(u.health, CallbackPanic) + Bit(u.dispatcher.Recording?)
            == CountFate(s.history.processed, Ran(Panicked)) - Bit(Unjudged(s.dispatcher))
  {
    LoggedAfterStop(c, s, inside, t, steps, u);
    PanicAccounting(c, s);
    var done := s.history.processed;
    PanicsAtExact(done);
    hide DoStop, After, PanicsAt, CountFate, Count, Logged;
    if Unjudged(s.dispatcher) {
      JudgedJob(c, s);
      assert LastAt(done) == [|done| - 1];
      LastNotBefore(Logged(s), |done| - 1);
    }
    hide Reachable;
  }

  // ---------- Order ----------

  ghost predicate Before<M>(a: Job<M>, b: Job<M>) {
    a.sample < b.sample || (a.sample == b.sample && a.reg < b.reg)
  }

  /** By sample in take order, and within a sample by registration order. */
  ghost predicate Ordered<M>(jobs: seq<Job<M>>) {
    forall i, j :: 0 <= i < j < |jobs| ==> Before(jobs[i], jobs[j])
  }

  ghost predicate Subsequence<M>(a: seq<Job<M>>, b: seq<Job<M>>) {
    if a == [] then true
    else if b == [] then false
    else
      || (a[|a| - 1] == b[|b| - 1] && Subsequence(a[..|a| - 1], b[..|b| - 1]))
      || Subsequence(a, b[..|b| - 1])
  }

  lemma {:induction false} SubsequenceMembers<M>(a: seq<Job<M>>, b: seq<Job<M>>)
    requires Subsequence(a, b)
    ensures forall job :: job in a ==> job in b
    decreases b
  {
    if a != [] {
      var front := b[..|b| - 1];
      if Subsequence(a, front) {
        SubsequenceMembers(a, front);
      } else {
        SubsequenceMembers(a[..|a| - 1], front);
        assert a == a[..|a| - 1] + [b[|b| - 1]];
      }
    }
  }

  lemma {:induction false} SubsequenceOrdered<M>(a: seq<Job<M>>, b: seq<Job<M>>)
    requires Subsequence(a, b) && Ordered(b)
    ensures Ordered(a)
    decreases b
  {
    if a != [] {
      var front := b[..|b| - 1];
      if Subsequence(a, front) {
        SubsequenceOrdered(a, front);
      } else {
        SubsequenceOrdered(a[..|a| - 1], front);
        SubsequenceMembers(a[..|a| - 1], front);
        forall i | 0 <= i < |a| - 1
          ensures Before(a[i], a[|a| - 1])
        {
          assert a[..|a| - 1][i] in front;
          var k :| 0 <= k < |front| && front[k] == a[i];
          assert Before(b[k], b[|b| - 1]);
        }
        forall i, j | 0 <= i < j < |a|
          ensures Before(a[i], a[j])
        {
          if j < |a| - 1 {
            assert Before(a[..|a| - 1][i], a[..|a| - 1][j]);
          }
        }
      }
    }
  }

  lemma {:induction false} SubsequenceSelf<M>(a: seq<Job<M>>)
    ensures Subsequence(a, a)
  {
    if a != [] {
      SubsequenceSelf(a[..|a| - 1]);
    }
  }

  lemma {:induction false} SubsequenceOfLonger<M>(a: seq<Job<M>>, b: seq<Job<M>>, more: seq<Job<M>>)
    requires Subsequence(a, b)
    ensures Subsequence(a, b + more)
  {
    if more == [] {
      assert b + more == b;
    } else {
      SubsequenceOfLonger(a, b, more[..|more| - 1]);
      assert (b + more)[..|b + more| - 1] == b + more[..|more| - 1];
    }
  }

  /** Appending the same job to both keeps the relation. */
  lemma SubsequenceSnoc<M>(a: seq<Job<M>>, b: seq<Job<M>>, job: Job<M>)
    requires Subsequence(a, b)
    ensures Subsequence(a + [job], b + [job])
  {
    assert (a + [job])[..|a|] == a && (b + [job])[..|b|] == b;
  }

  lemma {:induction false} SubsequenceTransitive<M>(a: seq<Job<M>>, b: seq<Job<M>>, d: seq<Job<M>>)
    requires Subsequence(a, b) && Subsequence(b, d)
    ensures Subsequence(a, d)
    decreases |b| + |d|
  {
    if a != [] {
      if Subsequence(b, d[..|d| - 1]) {
        SubsequenceTransitive(a, b, d[..|d| - 1]);
      } else if Subsequence(a, b[..|b| - 1]) {
        SubsequenceTransitive(a, b[..|b| - 1], d[..|d| - 1]);
      } else {
        SubsequenceTransitive(a[..|a| - 1], b[..|b| - 1], d[..|d| - 1]);
      }
    }
  }

  lemma {:induction false} SentWithinOffered<M>(offers: seq<Offer<M>>)
    ensures Subsequence(SentJobs(offers), OfferedJobs(offers))
  {
    if offers != [] {
      var front, last := offers[..|offers| - 1], offers[|offers| - 1];
      SentWithinOffered(front);
      if last.sent {
        SubsequenceSnoc(SentJobs(front), OfferedJobs(front), last.job);
      } else {
        assert SentJobs(offers) == SentJobs(front);
        SubsequenceOfLonger(SentJobs(front), OfferedJobs(front), [last.job]);
      }
    }
  }

  lemma {:induction false} RanWithinProcessed<M>(processed: seq<Processed<M>>)
    ensures Subsequence(RanJobs(processed), ProcessedJobs(processed))
  {
    if processed != [] {
      var front, last := processed[..|processed| - 1], processed[|processed| - 1];
      RanWithinProcessed(front);
      if last.fate.Ran? {
        SubsequenceSnoc(RanJobs(front), ProcessedJobs(front), last.job);
      } else {
        assert RanJobs(processed) == RanJobs(front);
        SubsequenceOfLonger(RanJobs(front), ProcessedJobs(front), [last.job]);
      }
    }
  }

  // ---------- The flattening of the snapshots ----------

  lemma {:induction false} AcceptedIncreasing<S, M>(c: Config<S, M>, taken: seq<Option<S>>, n: nat)
    requires n <= |taken|
    ensures Increasing(AcceptedUpTo(c, taken, n))
    ensures forall k :: k in AcceptedUpTo(c, taken, n) <==> 0 <= k < n && Accepted(c, taken[k])
  {
    if n > 0 {
      AcceptedIncreasing(c, taken, n - 1);
      var front := AcceptedUpTo(c, taken, n - 1);
      assert forall i :: 0 <= i < |front| ==> front[i] in front;
      hide Accepted;
    }
  }

  lemma {:induction false} SamplesAt<M>(snapshots: seq<Snapshot<M>>)
    ensures |SnapshotSamples(snapshots)| == |snapshots|
    ensures forall i :: 0 <= i < |snapshots| ==> SnapshotSamples(snapshots)[i] == snapshots[i].sample
  {
    if snapshots != [] {
      SamplesAt(snapshots[..|snapshots| - 1]);
    }
  }

  /** Each job of the flattening comes from a snapshot that chose its registration. */
  lemma {:induction false} FlattenMembers<M>(snapshots: seq<Snapshot<M>>, job: Job<M>) returns (i: nat)
    requires job in Flatten(snapshots)
    ensures i < |snapshots| && job == Job(snapshots[i].sample, job.reg, snapshots[i].message)
            && job.reg in snapshots[i].chosen
  {
    var front, last := snapshots[..|snapshots| - 1], snapshots[|snapshots| - 1];
    if job in Flatten(front) {
      i := FlattenMembers(front, job);
    } else {
      i := |snapshots| - 1;
      assert job in JobsFor(last.sample, last.message, last.chosen);
    }
  }

  lemma {:induction false} FlattenOrdered<M>(snapshots: seq<Snapshot<M>>)
    requires forall i, j :: 0 <= i < j < |snapshots| ==> snapshots[i].sample < snapshots[j].sample
    requires forall i :: 0 <= i < |snapshots| ==> Increasing(snapshots[i].chosen)
    ensures Ordered(Flatten(snapshots))
  {
    if snapshots != [] {
      var front, last := snapshots[..|snapshots| - 1], snapshots[|snapshots| - 1];
      FlattenOrdered(front);
      var jobs := JobsFor(last.sample, last.message, last.chosen);
      var before := Flatten(front);
      forall k | 0 <= k < |before|
        ensures before[k].sample < last.sample
      {
        var i := FlattenMembers(front, before[k]);
      }
      OrderedConcat(before, jobs, last.sample);
    }
  }

  lemma OrderedConcat<M>(a: seq<Job<M>>, b: seq<Job<M>>, sample: nat)
    requires Ordered(a) && forall i :: 0 <= i < |a| ==> a[i].sample < sample
    requires forall i :: 0 <= i < |b| ==> b[i].sample == sample
    requires forall i, j :: 0 <= i < j < |b| ==> b[i].reg < b[j].reg
    ensures Ordered(a + b)
  {
  }

  lemma SnapshotsOrdered<S(!new), M>(c: Config<S, M>, s: State<S, M>)
    requires Reachable(c, s)
    ensures Ordered(Flatten(s.history.snapshots))
  {
    InvReachable(c, s);
    hide Reachable;
    var h := s.history;
    AcceptedIncreasing(c, h.taken, h.examined);
    SamplesAt(h.snapshots);
    forall i | 0 <= i < |h.snapshots|
      ensures Increasing(h.snapshots[i].chosen)
    {
      var snap := h.snapshots[i];
      assert SnapshotOk(c, s.registry.keys, h.taken, snap);
      SelectIncreasing(c.matches, s.registry.keys, snap.listed, c.family.source(snap.message),
                       c.family.sink(snap.message));
    }
    FlattenOrdered(h.snapshots);
  }

  lemma StartedWithinSent<S, M>(c: Config<S, M>, s: State<S, M>)
    requires JobsOk(c, s)
    ensures Subsequence(s.history.started, SentJobs(s.history.offers))
  {
    var h := s.history;
    hide OffersOk, DropsOk, PanicsOk, SnapshotsOk, MalformedOk, Subsequence, ProcessedJobs, RanJobs, SentJobs;
    RanWithinProcessed(h.processed);
    var current := CurrentJob(s.dispatcher);
    if s.dispatcher.InCallback? {
      SubsequenceSnoc(RanJobs(h.processed), ProcessedJobs(h.processed), s.dispatcher.job);
    } else {
      assert RanJobs(h.processed) + [] == RanJobs(h.processed);
      SubsequenceOfLonger(RanJobs(h.processed), ProcessedJobs(h.processed), current);
    }
    SubsequenceOfLonger(h.started, ProcessedJobs(h.processed) + current, s.queue);
  }

  /** The samples with a snapshot are exactly the examined ones that decode to a message of another origin. */
  lemma SnapshotsExact<S(!new), M>(c: Config<S, M>, s: State<S, M>)
    requires Reachable(c, s)
    ensures s.history.examined <= |s.history.taken|
    ensures Increasing(SnapshotSamples(s.history.snapshots))
    ensures forall k: nat :: k in SnapshotSamples(s.history.snapshots)
                             <==> && k < s.history.examined && s.history.taken[k].Some?
                                  && c.family.origin(s.history.taken[k].value) != c.originId
                                  && c.family.decode(s.history.taken[k].value).Ok?
  {
    SnapshotsHold(c, s);
    AcceptedIncreasing(c, s.history.taken, s.history.examined);
    hide Reachable;
  }

  /**
   Looking at a sample of another origin that decodes, the poller takes into its hand one job for each entry listed at
   that moment whose filters accept the message, and for no other.
   */
  lemma EveryListenerAsked<S, M>(c: Config<S, M>, s: State<S, M>, t: State<S, M>, message: M, reg: nat)
    requires DoExamine(c, s) == Some(t)
    requires var sample := s.history.taken[s.history.examined];
             sample.Some? && c.family.origin(sample.value) != c.originId && c.family.decode(sample.value) == Ok(message)
    ensures t.poller.Batch?
    ensures Job(s.history.examined, reg, message) in t.poller.pending
            <==> && reg in s.registry.entries && reg < |s.registry.keys|
                 && c.matches(s.registry.keys[reg].source, c.family.source(message))
                 && (s.registry.keys[reg].sink.None? <==> c.family.sink(message).None?)
                 && (s.registry.keys[reg].sink.Some? ==>
                       c.matches(s.registry.keys[reg].sink.value, c.family.sink(message).value))
  {
    var source, sink := c.family.source(message), c.family.sink(message);
    var chosen := Select(c.matches, s.registry.keys, s.registry.entries, source, sink);
    SelectExact(c.matches, s.registry.keys, s.registry.entries, source, sink);
    var jobs := JobsFor(s.history.examined, message, chosen);
    assert t.poller == Batch(jobs);
    assert forall i :: 0 <= i < |chosen| ==> jobs[i] == Job(s.history.examined, chosen[i], message);
    if reg in chosen {
      var i :| 0 <= i < |chosen| && chosen[i] == reg;
      assert jobs[i] == Job(s.history.examined, reg, message);
    }
    hide Select, JobsFor;
  }

  /**
   There is one snapshot for each accepted sample, in take order; the jobs offered so far are a prefix of
   their flattening; and callbacks begin in the order of a subsequence of it.
   */
  lemma DeliveryOrder<S(!new), M>(c: Config<S, M>, s: State<S, M>)
    requires Reachable(c, s)
    ensures s.history.examined <= |s.history.taken|
    ensures SnapshotSamples(s.history.snapshots) == AcceptedUpTo(c, s.history.taken, s.history.examined)
    ensures OfferedJobs(s.history.offers) + Unoffered(s.poller) == Flatten(s.history.snapshots)
    ensures SentJobs(s.history.offers) == ProcessedJobs(s.history.processed) + CurrentJob(s.dispatcher) + s.queue
    ensures Subsequence(s.history.started, Flatten(s.history.snapshots))
    ensures Ordered(s.history.started)
  {
    InvReachable(c, s);
    hide Reachable;
    var h := s.history;
    StartedWithinSent(c, s);
    SentWithinOffered(h.offers);
    SubsequenceTransitive(h.started, SentJobs(h.offers), OfferedJobs(h.offers));
    SubsequenceSelf(OfferedJobs(h.offers));
    SubsequenceOfLonger(OfferedJobs(h.offers), OfferedJobs(h.offers), Unoffered(s.poller));
    SubsequenceTransitive(h.started, OfferedJobs(h.offers), Flatten(h.snapshots));
    SnapshotsOrdered(c, s);
    SubsequenceOrdered(h.started, Flatten(h.snapshots));
    hide ControlOk, RegsOk, DropsOk, PanicsOk, MalformedOk, Subsequence, Ordered, StartsOk;
  }

  /** Each registration sees samples in take order and no sample twice. */
  lemma PerRegistrationOrder<S(!new), M>(c: Config<S, M>, s: State<S, M>, i: nat, j: nat)
    requires Reachable(c, s) && i < j < |s.history.started|
    requires s.history.started[i].reg == s.history.started[j].reg
    ensures s.history.started[i].sample < s.history.started[j].sample
  {
    InvReachable(c, s);
    hide Reachable;
    DeliveryOrder(c, s);
    hide Inv;
    assert Before(s.history.started[i], s.history.started[j]);
  }

  // ---------- Where a message comes from ----------

  /** A job stands for a message of another origin that the filters of its registration accept. */
  ghost predicate RightfulJob<S, M>(c: Config<S, M>, s: State<S, M>, job: Job<M>) {
    && job.sample < |s.history.taken| && job.reg < |s.registry.keys|
    && s.history.taken[job.sample].Some?
    && c.family.origin(s.history.taken[job.sample].value) != c.originId
    && c.family.decode(s.history.taken[job.sample].value) == Ok(job.message)
    && var key, sink := s.registry.keys[job.reg], c.family.sink(job.message);
       && c.matches(key.source, c.family.source(job.message))
       && (key.sink.None? <==> sink.None?)
       && (key.sink.Some? ==> c.matches(key.sink.value, sink.value))
  }

  lemma SnapshotsHold<S(!new), M>(c: Config<S, M>, s: State<S, M>)
    requires Reachable(c, s)
    ensures SnapshotsOk(c, s.registry.keys, s.history.taken, s.history.examined, s.history.snapshots)
  {
    InvReachable(c, s);
    hide Reachable, ControlOk, RegsOk, OffersOk, QueueOk, DropsOk, PanicsOk, MalformedOk, StartsOk, SnapshotsOk;
  }

  /** Every callback that ever begins delivers what an accepted sample decodes to, to a listener that asked for it. */
  lemma StartedRightful<S(!new), M>(c: Config<S, M>, s: State<S, M>, job: Job<M>)
    requires Reachable(c, s) && job in s.history.started
    ensures RightfulJob(c, s, job)
  {
    hide Reachable, Subsequence, Ordered, Inv, Flatten;
    var h := s.history;
    DeliveryOrder(c, s);
    SubsequenceMembers(h.started, Flatten(h.snapshots));
    var i := FlattenMembers(h.snapshots, job);
    var snap := h.snapshots[i];
    SnapshotsHold(c, s);
    assert SnapshotOk(c, s.registry.keys, h.taken, snap);
    SelectExact(c.matches, s.registry.keys, snap.listed, c.family.source(snap.message), c.family.sink(snap.message));
  }

  /** The positions among the first `n` samples that hold data of another origin which does not decode. */
  ghost function Undecodable<S, M>(c: Config<S, M>, taken: seq<Option<S>>, n: nat): set<nat>
    requires n <= |taken|
  {
    set k: nat | k < n && taken[k].Some? && c.family.origin(taken[k].value) != c.originId
                 && c.family.decode(taken[k].value).Err?
  }

  lemma {:induction false} UndecodableCount<S, M>(c: Config<S, M>, taken: seq<Option<S>>, n: nat)
    requires n <= |taken|
    ensures MalformedUpTo(c, taken, n) == |Undecodable(c, taken, n)|
  {
    if n > 0 {
      UndecodableCount(c, taken, n - 1);
      var before := Undecodable(c, taken, n - 1);
      assert Undecodable(c, taken, n) == if Malformed(c, taken[n - 1]) then before + {n - 1} else before;
    }
  }

  lemma MalformedCounted<S(!new), M>(c: Config<S, M>, s: State<S, M>)
    requires Reachable(c, s)
    ensures s.history.examined <= |s.history.taken|
    ensures Count(s.health, MalformedSample) == MalformedUpTo(c, s.history.taken, s.history.examined)
  {
    InvReachable(c, s);
    hide Reachable, RegsOk, OffersOk, QueueOk, DropsOk, PanicsOk, StartsOk;
  }

  /** Every job sent to the dispatcher is rightful, whether it has been processed or not. */
  lemma SentRightful<S(!new), M>(c: Config<S, M>, s: State<S, M>, job: Job<M>)
    requires Reachable(c, s) && job in SentJobs(s.history.offers)
    ensures RightfulJob(c, s, job)
  {
    hide Reachable, Subsequence, Ordered, Inv, Flatten;
    var h := s.history;
    DeliveryOrder(c, s);
    SentWithinOffered(h.offers);
    SubsequenceMembers(SentJobs(h.offers), OfferedJobs(h.offers));
    assert job in OfferedJobs(h.offers) + Unoffered(s.poller);
    var i := FlattenMembers(h.snapshots, job);
    var snap := h.snapshots[i];
    SnapshotsHold(c, s);
    assert SnapshotOk(c, s.registry.keys, h.taken, snap);
    SelectExact(c.matches, s.registry.keys, snap.listed, c.family.source(snap.message), c.family.sink(snap.message));
  }

  // ---------- Which jobs run ----------

  /** `begin` runs the job of an active registration and skips any other, and does nothing else. */
  lemma BeginDecides<S, M>(c: Config<S, M>, s: State<S, M>, t: State<S, M>)
    requires Next(c, s, Dispatch(Begin)) == Some(t)
    ensures s.dispatcher.Beginning?
    ensures var job := s.dispatcher.job;
            if job.reg in s.registry.active then
              && t.history.started == s.history.started + [job] && t.history.processed == s.history.processed
              && t.dispatcher == InCallback(job, TestFinished, Spawned(false))
              && t.registry.tokens == s.registry.tokens + multiset{job.reg}
            else
              && t.history.started == s.history.started && t.dispatcher == Receiving
              && t.history.processed == s.history.processed + [Processed(job, Skipped)]
              && t.registry.tokens == s.registry.tokens
  {
  }

  /** The registration of every skipped job exists and is inactive. */
  ghost predicate SkippedDead<S, M>(s: State<S, M>) {
    forall i :: 0 <= i < |s.history.processed| && s.history.processed[i].fate == Skipped ==>
                  s.history.processed[i].job.reg < |s.registry.keys|
                  && s.history.processed[i].job.reg !in s.registry.active
  }

  /** Only the dispatcher processes jobs, one at a time. */
  lemma ProcessedNext<S, M>(c: Config<S, M>, s: State<S, M>, step: Step<S>, t: State<S, M>)
    requires Next(c, s, step) == Some(t)
    ensures t.history.processed == s.history.processed
            || (exists fate: Fate :: |CurrentJob(s.dispatcher)| == 1
                  && t.history.processed == s.history.processed + [Processed(CurrentJob(s.dispatcher)[0], fate)]
                  && (fate == Skipped ==> CurrentJob(s.dispatcher)[0].reg !in s.registry.active)
                  && t.registry.active == s.registry.active && t.registry.keys == s.registry.keys)
  {
    hide ApiNext, PollerNext, TaskNext, CloseNext;
    match step
    case Api(a) => var u := ApiWrites(s, a);
    case Poll(p) => var u := PollerWrites(c, s, p);
    case Dispatch(d) => var u := DispatcherWrites(s, d); ProcessedByDispatcher(s, d);
    case Run(k) => var u := TaskWrites(s, k);
    case Close(k) => var u := CloseWrites(s, k);
  }

  lemma ProcessedByDispatcher<S, M>(s: State<S, M>, step: DispatcherStep)
    requires DispatcherNext(s, step).Some?
    ensures var t := DispatcherNext(s, step).value;
            t.history.processed == s.history.processed
            || (exists fate: Fate :: |CurrentJob(s.dispatcher)| == 1
                  && t.history.processed == s.history.processed + [Processed(CurrentJob(s.dispatcher)[0], fate)]
                  && (fate == Skipped ==> CurrentJob(s.dispatcher)[0].reg !in s.registry.active))
  {
    var t := DispatcherNext(s, step).value;
    if step == Begin && s.dispatcher.job.reg !in s.registry.active {
      assert t.history.processed == s.history.processed + [Processed(CurrentJob(s.dispatcher)[0], Skipped)];
    }
    if step == Join {
      assert t.history.processed
             == s.history.processed + [Processed(CurrentJob(s.dispatcher)[0], Ran(s.dispatcher.task.outcome))];
    }
    hide Aborted;
  }

  lemma SkippedDeadNext<S(!new), M>(c: Config<S, M>, s: State<S, M>, step: Step<S>, t: State<S, M>)
    requires Reachable(c, s) && SkippedDead(s) && Next(c, s, step) == Some(t)
    ensures SkippedDead(t)
  {
    hide Next, Reachable, RightfulJob, Inv;
    ProcessedNext(c, s, step, t);
    if CurrentJob(s.dispatcher) != [] {
      DeliveryOrder(c, s);
      assert CurrentJob(s.dispatcher)[0] in SentJobs(s.history.offers);
      SentRightful(c, s, CurrentJob(s.dispatcher)[0]);
      CurrentIsKnown(c, s, CurrentJob(s.dispatcher)[0]);
    }
    forall i | 0 <= i < |s.history.processed| && s.history.processed[i].fate == Skipped
      ensures s.history.processed[i].job.reg < |t.registry.keys| && s.history.processed[i].job.reg !in t.registry.active
    {
      DeadNext(c, s, step, t, s.history.processed[i].job.reg);
    }
  }

  lemma CurrentIsKnown<S, M>(c: Config<S, M>, s: State<S, M>, job: Job<M>)
    requires RightfulJob(c, s, job)
    ensures job.reg < |s.registry.keys|
  {
  }

  lemma {:induction false} SkippedDeadAfter<S(!new), M>(c: Config<S, M>, s: State<S, M>, steps: seq<Step<S>>,
                                                        t: State<S, M>)
    requires Reachable(c, s) && SkippedDead(s) && After(c, s, steps) == Some(t)
    ensures SkippedDead(t)
    decreases steps
  {
    hide Next, Reachable, SkippedDead;
    if steps != [] {
      var mid := Next(c, s, steps[0]).value;
      SkippedDeadNext(c, s, steps[0], mid);
      ReachableNext(c, s, steps[0], mid);
      SkippedDeadAfter(c, mid, steps[1..], t);
    }
  }

  /**
   A job is skipped only because its registration is inactive, and that it stays: as long as a registration is
   active, every job of it that has been processed has run.
   */
  lemma SkippedOnlyInactive<S(!new), M>(c: Config<S, M>, s: State<S, M>, i: nat)
    requires Reachable(c, s) && i < |s.history.processed|
    ensures s.history.processed[i].job.reg < |s.registry.keys|
    ensures s.history.processed[i].job.reg in s.registry.active ==> s.history.processed[i].fate.Ran?
  {
    var start: State<S, M> := Init();
    var steps: seq<Step<S>> :| After(c, start, steps) == Some(s);
    assert After(c, start, []) == Some(start);
    assert Reachable(c, start);
    assert SkippedDead(start);
    var job := s.history.processed[i].job;
    ProcessedAt(s.history.processed, i);
    hide After, SkippedDead, RightfulJob, Reachable, ProcessedJobs, SentJobs;
    DeliveryOrder(c, s);
    assert job in ProcessedJobs(s.history.processed);
    SentRightful(c, s, job);
    CurrentIsKnown(c, s, job);
    SkippedDeadAfter(c, start, steps, s);
    SkippedAt(s, i);
  }

  lemma SkippedAt<S, M>(s: State<S, M>, i: nat)
    requires SkippedDead(s) && i < |s.history.processed|
    ensures s.history.processed[i].job.reg in s.registry.active ==> s.history.processed[i].fate.Ran?
  {
  }

  lemma {:induction false} ProcessedAt<M>(processed: seq<Processed<M>>, i: nat)
    requires i < |processed|
    ensures |ProcessedJobs(processed)| == |processed| && ProcessedJobs(processed)[i] == processed[i].job
  {
    if i < |processed| - 1 {
      ProcessedAt(processed[..|processed| - 1], i);
    } else if |processed| > 1 {
      ProcessedAt(processed[..|processed| - 1], 0);
    }
  }

  /** Malformed events count exactly the examined samples of other origins that do not decode. */
  lemma MalformedExact<S(!new), M>(c: Config<S, M>, s: State<S, M>)
    requires Reachable(c, s)
    ensures s.history.examined <= |s.history.taken|
    ensures Count(s.health, MalformedSample)
            == |set k: nat | && k < s.history.examined && s.history.taken[k].Some?
                             && c.family.origin(s.history.taken[k].value) != c.originId
                             && c.family.decode(s.history.taken[k].value).Err?|
  {
    MalformedCounted(c, s);
    UndecodableCount(c, s.history.taken, s.history.examined);
    assert Undecodable(c, s.history.taken, s.history.examined)
           == set k: nat | && k < s.history.examined && s.history.taken[k].Some?
                           && c.family.origin(s.history.taken[k].value) != c.originId
                           && c.family.decode(s.history.taken[k].value).Err?;
    hide Reachable, Undecodable, MalformedUpTo, Count;
  }

  /** Every entry of the health log, kind by kind, is one failure of the run, and each failure is there once. */
  lemma HealthAccounted<S(!new), M>(c: Config<S, M>, s: State<S, M>)
    requires Reachable(c, s)
    ensures s.history.examined <= |s.history.taken|
    ensures Count(s.health, Dds) == s.history.failedTakes
    ensures Count(s.health, MalformedSample) == MalformedUpTo(c, s.history.taken, s.history.examined)
    ensures Count(s.health, DispatchBackpressure)
            == |s.history.offers| - |SentJobs(s.history.offers)| - Bit(s.poller.Refused?)
    ensures Count(s.health, CallbackPanic) == |s.history.reported|
    ensures Count(s.health, WorkerPanic)
            == Bit(PollerJoined(s.closing) && s.poller.PollerExited? && s.poller.panicked)
    ensures |s.health| == Count(s.health, Dds) + Count(s.health, MalformedSample)
                          + Count(s.health, DispatchBackpressure) + Count(s.health, CallbackPanic)
                          + Count(s.health, WorkerPanic)
  {
    InvReachable(c, s);
    CountersSum(s.health);
    hide Reachable, RegsOk, OffersOk, QueueOk, StartsOk, PanicsOk, SnapshotsOk, Count;
  }
}
