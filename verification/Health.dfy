/**
 The bounded health log of src/runtime.rs: six counters and a ring of the most recent events,
 proved to be views of the full history of `record` calls.
 */
module Health {

  const MAX_HEALTH_EVENTS: nat := 64

  datatype HealthErrorKind =
    | Dds
    | MalformedSample
    | DispatchBackpressure
    | CallbackPanic
    | WorkerPanic
    | Teardown

  datatype HealthEvent = HealthEvent(sequence: nat, kind: HealthErrorKind, detail: string)

  datatype HealthSnapshot = HealthSnapshot(
    ddsErrors: nat,
    malformedSamples: nat,
    dispatchDrops: nat,
    callbackPanics: nat,
    workerPanics: nat,
    teardownErrors: nat,
    recentEvents: seq<HealthEvent>)

  /** How many of `kinds` are `kind`. */
  function Count(kinds: seq<HealthErrorKind>, kind: HealthErrorKind): nat {
    if kinds == [] then 0
    else Count(kinds[..|kinds| - 1], kind) + (if kinds[|kinds| - 1] == kind then 1 else 0)
  }

  lemma CountAppend(kinds: seq<HealthErrorKind>, last: HealthErrorKind)
    ensures forall kind :: Count(kinds + [last], kind) == Count(kinds, kind) + (if last == kind then 1 else 0)
  {
    assert (kinds + [last])[..|kinds|] == kinds;
  }

  ghost function Kinds(history: seq<HealthEvent>): (kinds: seq<HealthErrorKind>)
    ensures |kinds| == |history|
    ensures forall i :: 0 <= i < |kinds| ==> kinds[i] == history[i].kind
  {
    seq(|history|, i requires 0 <= i < |history| => history[i].kind)
  }

  lemma KindsAppend(history: seq<HealthEvent>, event: HealthEvent)
    ensures Kinds(history + [event]) == Kinds(history) + [event.kind]
  {
  }

  /** The window a bounded ring keeps of an unbounded history. */
  ghost function Recent(history: seq<HealthEvent>): seq<HealthEvent> {
    if |history| <= MAX_HEALTH_EVENTS then history else history[|history| - MAX_HEALTH_EVENTS..]
  }

  /** Dropping the oldest of a full ring before appending keeps the window. */
  lemma RecentAppend(history: seq<HealthEvent>, event: HealthEvent)
    ensures Recent(history + [event])
            == (if |Recent(history)| == MAX_HEALTH_EVENTS then Recent(history)[1..] else Recent(history)) + [event]
  {
  }

  /** Events are numbered from one in the order they were recorded. */
  ghost predicate Numbered(history: seq<HealthEvent>) {
    forall i :: 0 <= i < |history| ==> history[i].sequence == i + 1
  }

  /** The six counters of a snapshot together account for every event ever recorded. */
  lemma {:induction false} CountersSum(kinds: seq<HealthErrorKind>)
    ensures Count(kinds, Dds) + Count(kinds, MalformedSample) + Count(kinds, DispatchBackpressure)
            + Count(kinds, CallbackPanic) + Count(kinds, WorkerPanic) + Count(kinds, Teardown) == |kinds|
  {
    if kinds != [] {
      CountersSum(kinds[..|kinds| - 1]);
    }
  }

  class DdsHealth {
    var nextSequence: nat
    var ddsErrors: nat
    var malformedSamples: nat
    var dispatchDrops: nat
    var callbackPanics: nat
    var workerPanics: nat
    var teardownErrors: nat
    var events: seq<HealthEvent>
    ghost var history: seq<HealthEvent>

    ghost predicate Valid()
      reads this
    {
      var kinds := Kinds(history);
      && Numbered(history)
      && nextSequence == |history|
      && ddsErrors == Count(kinds, Dds)
      && malformedSamples == Count(kinds, MalformedSample)
      && dispatchDrops == Count(kinds, DispatchBackpressure)
      && callbackPanics == Count(kinds, CallbackPanic)
      && workerPanics == Count(kinds, WorkerPanic)
      && teardownErrors == Count(kinds, Teardown)
      && events == Recent(history)
    }

    constructor ()
      ensures Valid() && history == []
    {
      nextSequence := 0;
      ddsErrors, malformedSamples, dispatchDrops := 0, 0, 0;
      callbackPanics, workerPanics, teardownErrors := 0, 0, 0;
      events, history := [], [];
    }

    /** Adds one to the counter of this kind and leaves the other five. */
    method Tally(kind: HealthErrorKind)
      modifies `ddsErrors, `malformedSamples, `dispatchDrops, `callbackPanics, `workerPanics, `teardownErrors
      ensures ddsErrors == old(ddsErrors) + (if kind == Dds then 1 else 0)
      ensures malformedSamples == old(malformedSamples) + (if kind == MalformedSample then 1 else 0)
      ensures dispatchDrops == old(dispatchDrops) + (if kind == DispatchBackpressure then 1 else 0)
      ensures callbackPanics == old(callbackPanics) + (if kind == CallbackPanic then 1 else 0)
      ensures workerPanics == old(workerPanics) + (if kind == WorkerPanic then 1 else 0)
      ensures teardownErrors == old(teardownErrors) + (if kind == Teardown then 1 else 0)
    {
      match kind {
        case Dds => ddsErrors := ddsErrors + 1;
        case MalformedSample => malformedSamples := malformedSamples + 1;
        case DispatchBackpressure => dispatchDrops := dispatchDrops + 1;
        case CallbackPanic => callbackPanics := callbackPanics + 1;
        case WorkerPanic => workerPanics := workerPanics + 1;
        case Teardown => teardownErrors := teardownErrors + 1;
      }
    }

    /** Counts the event, numbers it, and makes room for it by forgetting the oldest one. */
    method Record(kind: HealthErrorKind, detail: string)
      requires Valid()
      modifies this
      ensures Valid()
      ensures history == old(history) + [HealthEvent(|old(history)| + 1, kind, detail)]
      ensures Kinds(history) == Kinds(old(history)) + [kind]
    {
      hide Recent, Count, Kinds;
      ghost var event := HealthEvent(nextSequence + 1, kind, detail);
      RecentAppend(history, event);
      KindsAppend(history, event);
      CountAppend(Kinds(history), kind);
      Tally(kind);
      nextSequence := nextSequence + 1;
      var sequence := nextSequence;
      if |events| == MAX_HEALTH_EVENTS {
        events := events[1..];
      }
      events := events + [HealthEvent(sequence, kind, detail)];
      history := history + [event];
    }

    /** The counters count the whole history; the events are its last 64, numbered up to the total. */
    method Snapshot() returns (snapshot: HealthSnapshot)
      requires Valid()
      ensures var kinds := Kinds(history);
              && snapshot.ddsErrors == Count(kinds, Dds)
              && snapshot.malformedSamples == Count(kinds, MalformedSample)
              && snapshot.dispatchDrops == Count(kinds, DispatchBackpressure)
              && snapshot.callbackPanics == Count(kinds, CallbackPanic)
              && snapshot.workerPanics == Count(kinds, WorkerPanic)
              && snapshot.teardownErrors == Count(kinds, Teardown)
      ensures snapshot.ddsErrors + snapshot.malformedSamples + snapshot.dispatchDrops
              + snapshot.callbackPanics + snapshot.workerPanics + snapshot.teardownErrors == |history|
      ensures snapshot.recentEvents == Recent(history)
      ensures |snapshot.recentEvents| == if |history| < 64 then |history| else 64
      ensures forall i :: 0 <= i < |snapshot.recentEvents| ==>
                snapshot.recentEvents[i].sequence == |history| - |snapshot.recentEvents| + i + 1
    {
      CountersSum(Kinds(history));
      snapshot := HealthSnapshot(ddsErrors, malformedSamples, dispatchDrops, callbackPanics, workerPanics,
                                 teardownErrors, events);
    }
  }
}
