/**
 The threads in the form of the source: the poller, the dispatcher with `run_callback`, `unregister` with its wait,
 and the drop. Each touches the shared state one atomic step of the protocol at a time, and after every step and
 every look the other threads take any steps of theirs.
 */
module Threads {
  import opened Wrappers
  import opened RegistryModel
  import opened Health
  import opened Protocol
  import opened Safety
  import opened Delivery
  import opened Invariant
  import opened Ordering
  import opened Unregistering
  import opened Shutdown
  import opened Interference
  import ListenerRegistry

  /** What the dispatcher has before it when it begins to watch a callback; `gone` says that the poller has left. */
  datatype Entry<M> = Entry(job: Job<M>, processed: seq<Processed<M>>, reported: seq<nat>, queue: seq<Job<M>>,
                            gone: bool)

  /** What the threads of one transport share. In the turn of that number the others try `others(turn)`. */
  class Shared<S(!new), M(!new)> {
    const config: Config<S, M>
    const others: nat -> seq<Step<S>>
    var turn: nat
    var state: State<S, M>
    ghost var log: seq<Event<S>>

    /** The state is the one the log tells of: nothing but steps of the protocol and turns of the others led to it. */
    ghost predicate Valid()
      reads this
    {
      Told(config, others, log) == Some(state) && turn == |log|
    }

    constructor (config: Config<S, M>, others: nat -> seq<Step<S>>)
      ensures Valid() && state == Init() && log == []
      ensures this.config == config && this.others == others
    {
      this.config, this.others, turn := config, others, 0;
      state, log := Init(), [];
    }

    lemma InRun()
      requires Valid()
      ensures Reachable(config, state) && Inv(config, state)
    {
      hide Reachable, Inv, Told;
      ToldReachable(config, others, log, state);
      InvReachable(config, state);
    }

    /** The others try what they try in this turn. */
    method YieldTurn(actor: Actor)
      modifies `state, `turn
      ensures state == Interfered(config, actor, old(state), others(old(turn))) && turn == old(turn) + 1
    {
      hide Next, Owns;
      var tries := others(turn);
      for i := 0 to |tries|
        invariant turn == old(turn)
        invariant Interfered(config, actor, state, tries[i..]) == Interfered(config, actor, old(state), tries)
      {
        assert tries[i..][1..] == tries[i + 1..];
        state := Tried(config, actor, state, tries[i]);
      }
      turn := turn + 1;
    }

    /** One atomic access of the actor, then a turn of the others, who keep what the actor left as its own. */
    method Take(actor: Actor, step: Step<S>)
      requires Valid() && Owns(actor, step) && Next(config, state, step).Some?
      modifies `state, `log, `turn
      ensures Valid() && log == old(log) + [Did(actor, step)] && Grew(actor, old(log), log, [step])
      ensures state == Interfered(config, actor, Next(config, old(state), step).value, others(old(turn)))
      ensures Kept(actor, Next(config, old(state), step).value, state)
    {
      hide Next, Reachable, Inv, Kept, Interfered, Told, Grew;
      InRun();
      ghost var mid := Next(config, state, step).value;
      ReachableNext(config, state, step, mid);
      InterferedKeeps(config, actor, mid, others(turn));
      ToldSnoc(config, others, log, state, Did(actor, step));
      GrewOne(actor, log, Did(actor, step));
      state := Next(config, state, step).value;
      YieldTurn(actor);
      log := log + [Did(actor, step)];
    }

    /** The actor waits, because it has to: a turn of the others. */
    method Wait(actor: Actor)
      requires Valid() && MayWait(actor, state)
      modifies `state, `log, `turn
      ensures Valid() && log == old(log) + [Idle(actor)] && Grew(actor, old(log), log, [])
      ensures Kept(actor, old(state), state)
    {
      hide Next, Reachable, Inv, Kept, Interfered, Told, Grew;
      InRun();
      InterferedKeeps(config, actor, state, others(turn));
      ToldSnoc(config, others, log, state, Idle(actor));
      GrewOne(actor, log, Idle(actor));
      YieldTurn(actor);
      log := log + [Idle(actor)];
    }

    // ---------- The dispatcher ----------

    /** Where `run_callback` goes on after a look at the task or at the stop flag. */
    static function Onward(at: Watch, answer: bool): Watch {
      match at
      case TestFinished => if answer then DecideStop else TestStop
      case TestStop => if answer then DecideStop else TestFinished
      case DecideStop => if answer then DecideFinished else Joining
      case _ => Joining
    }

    /** What `run_callback` sees there. */
    static function Seen(s: State<S, M>): bool {
      if s.dispatcher.InCallback? && (s.dispatcher.at.TestFinished? || s.dispatcher.at.DecideFinished?)
      then s.dispatcher.task.Finished?
      else s.stopped
    }

    /** The callback is being watched, nothing has been noted about it, and nobody has taken a job. */
    ghost predicate Watching(entry: Entry<M>)
      reads this
    {
      && Valid()
      && state.dispatcher.InCallback? && state.dispatcher.job == entry.job
      && state.history.processed == entry.processed && state.history.reported == entry.reported
      && Queued(entry.gone, entry.queue)
    }

    /** Nobody has taken a job; and none has come if the poller has left. */
    ghost predicate Queued(gone: bool, queue: seq<Job<M>>)
      reads this
    {
      queue <= state.queue && (gone ==> state.poller.PollerExited? && state.queue == queue)
    }

    /** `task.is_finished()` or `stop.is_stopped()`, whichever is next. */
    method Look(ghost entry: Entry<M>) returns (answer: bool)
      requires Watching(entry) && !state.dispatcher.at.Joining?
      modifies `state, `log, `turn
      ensures Watching(entry) && Grew(DispatcherThread, old(log), log, [Dispatch(Observe)]) && |log| == |old(log)| + 1
      ensures answer == Seen(old(state))
      ensures state.dispatcher.at == Onward(old(state.dispatcher.at), answer)
    {
      hide Told, Grew, ControlOk;
      answer := Seen(state);
      Take(DispatcherThread, Dispatch(Observe));
    }

    /**
     The first wait of `run_callback`: until the task is finished or the stop flag is up. Still watching after
     `turns` turns, it has looked at the task and at the flag that often.
     */
    method Watch(ghost entry: Entry<M>, turns: nat) returns (watching: bool, left: nat, ghost looks: nat)
      requires Watching(entry) && state.dispatcher.at == TestFinished
      modifies `state, `log, `turn
      ensures Watching(entry)
      ensures state.dispatcher.at == if watching then TestFinished else DecideStop
      ensures Grew(DispatcherThread, old(log), log, Repeat(Dispatch(Observe), looks)) && |log| == |old(log)| + looks
      ensures left <= turns && turns - left <= looks <= 2 * (turns - left)
      ensures watching ==> left == 0 && looks == 2 * turns
    {
      hide Next, Told, Grew, Repeat;
      watching, left, looks := true, turns, 0;
      GrewNone(DispatcherThread, log);
      RepeatMore<S>(Dispatch(Observe), 0, 0);
      while watching && left > 0
        invariant Watching(entry) && left <= turns
        invariant state.dispatcher.at == if watching then TestFinished else DecideStop
        invariant Grew(DispatcherThread, old(log), log, Repeat(Dispatch(Observe), looks)) && |log| == |old(log)| + looks
        invariant turns - left <= looks <= 2 * (turns - left) && (watching ==> looks == 2 * (turns - left))
      {
        left := left - 1;
        ghost var before := log;
        var finished := Look(entry);
        LookedOnce(old(log), before, log, looks);
        looks := looks + 1;
        if finished {
          watching := false;
        } else {
          before := log;
          var stopped := Look(entry);
          LookedOnce(old(log), before, log, looks);
          looks := looks + 1;
          watching := !stopped;
        }
      }
    }

    static lemma LookedOnce(start: seq<Event<S>>, before: seq<Event<S>>, after: seq<Event<S>>, looks: nat)
      requires Grew(DispatcherThread, start, before, Repeat(Dispatch(Observe), looks))
      requires Grew(DispatcherThread, before, after, [Dispatch(Observe)])
      ensures Grew(DispatcherThread, start, after, Repeat(Dispatch(Observe), looks + 1))
    {
      hide Grew;
      GrewOn(DispatcherThread, start, before, after, Repeat(Dispatch(Observe), looks), [Dispatch(Observe)]);
      RepeatMore<S>(Dispatch(Observe), looks, 1);
    }

    /** The decision to abort: the stop flag is up and the task is not finished. */
    method Decide(ghost entry: Entry<M>) returns (ghost looks: nat)
      requires Watching(entry) && state.dispatcher.at == DecideStop
      modifies `state, `log, `turn
      ensures Watching(entry) && state.dispatcher.at == Joining
      ensures looks == if old(state.stopped) then 2 else 1
      ensures Grew(DispatcherThread, old(log), log, Repeat(Dispatch(Observe), looks)) && |log| == |old(log)| + looks
    {
      hide Next, Told, Grew, Repeat;
      GrewNone(DispatcherThread, log);
      RepeatMore<S>(Dispatch(Observe), 0, 0);
      var stopped := Look(entry);
      LookedOnce(old(log), old(log), log, 0);
      looks := 1;
      if stopped {
        ghost var before := log;
        var finished := Look(entry);
        LookedOnce(old(log), before, log, 1);
        looks := 2;
      }
    }

    /** `block_on(task)` while the task is not finished. */
    method AwaitTask(ghost entry: Entry<M>, turns: nat)
      requires Watching(entry) && state.dispatcher.at == Joining
      modifies `state, `log, `turn
      ensures Watching(entry) && state.dispatcher.at == Joining
      ensures Grew(DispatcherThread, old(log), log, []) && |log| <= |old(log)| + turns
      ensures state.dispatcher.task.Finished? || |log| == |old(log)| + turns
    {
      hide Next, Told, Grew;
      GrewNone(DispatcherThread, log);
      var left: nat := turns;
      while !state.dispatcher.task.Finished? && left > 0
        invariant Watching(entry) && state.dispatcher.at == Joining
        invariant Grew(DispatcherThread, old(log), log, []) && |log| == |old(log)| + turns - left
      {
        ghost var before := log;
        Wait(DispatcherThread);
        WaitedOn(old(log), before, log, []);
        left := left - 1;
      }
    }

    /** `block_on(task)` on a finished task. */
    method Join(ghost entry: Entry<M>)
      requires Watching(entry)
      requires state.dispatcher.at == Joining && state.dispatcher.task.Finished?
      modifies `state, `log, `turn
      ensures Valid() && Grew(DispatcherThread, old(log), log, [Dispatch(Protocol.Join)])
      ensures state.history.reported == entry.reported && Queued(entry.gone, entry.queue)
      ensures var outcome := old(state.dispatcher.task.outcome);
              && state.dispatcher == (if outcome == Completed then Receiving else Judging(outcome))
              && state.history.processed == entry.processed + [Processed(entry.job, Ran(outcome))]
              && (outcome == Cancelled ==> state.stopped)
    {
      hide Told, Grew, Inv, Reachable;
      InRun();
      if state.dispatcher.task.outcome == Cancelled {
        CancelNeedsStop(config, state);
      }
      Take(DispatcherThread, Dispatch(Protocol.Join));
    }

    /** What follows a failed join, in the dispatcher's own steps. */
    static ghost function Judgement(failed: bool, flag: bool): seq<Step<S>> {
      if !failed then []
      else [Dispatch(Protocol.Judge)] + (if flag then [] else [Dispatch(RecordPanic)])
    }

    /** The failure goes to the health log. */
    method Report()
      requires Valid() && state.dispatcher.Recording? && |state.history.processed| > 0
      modifies `state, `log, `turn
      ensures Valid() && Grew(DispatcherThread, old(log), log, [Dispatch(RecordPanic)])
      ensures state.dispatcher == Receiving && Queued(old(state.poller.PollerExited?), old(state.queue))
      ensures state.history.processed == old(state.history.processed)
      ensures state.history.reported == old(state.history.reported) + [|old(state.history.processed)| - 1]
    {
      hide Told, Grew, ControlOk;
      Take(DispatcherThread, Dispatch(RecordPanic));
    }

    /** A failed join: report it unless the stop flag is up by now. */
    method Judge(ghost processed: seq<Processed<M>>, ghost reported: seq<nat>) returns (flag: bool)
      requires Valid() && state.dispatcher.Judging? && |processed| > 0
      requires state.history.processed == processed && state.history.reported == reported
      modifies `state, `log, `turn
      ensures Valid() && Grew(DispatcherThread, old(log), log, Judgement(true, flag))
      ensures state.dispatcher == Receiving && Queued(old(state.poller.PollerExited?), old(state.queue))
      ensures state.history.processed == processed && (flag ==> state.stopped) && flag == old(state.stopped)
      ensures state.history.reported == if flag then reported else reported + [|processed| - 1]
    {
      hide Told, Grew, ControlOk;
      flag := state.stopped;
      Take(DispatcherThread, Dispatch(Protocol.Judge));
      ghost var first: seq<Step<S>> := [Dispatch(Protocol.Judge)];
      assert first + [] == first;
      if !flag {
        ghost var before := log;
        Report();
        GrewOn(DispatcherThread, old(log), before, log, first, [Dispatch(RecordPanic)]);
      }
    }

    /**
     `run_callback` after the spawn, for as many as `turns` turns of its two waits: watch the task until it is
     finished or the stop flag is up, abort it in the second case, join it, and report a failure unless the flag
     is up by then. `flag` is that last look, taken only at a failure.
     */
    method RunCallback(turns: nat) returns (done: bool, outcome: Outcome, flag: bool, ghost looks: nat)
      requires Valid() && state.dispatcher.InCallback? && state.dispatcher.at == TestFinished
      modifies `state, `log, `turn
      ensures Valid()
      ensures !done ==>
                && Watching(Entry(old(state.dispatcher.job), old(state.history.processed), old(state.history.reported),
                                  old(state.queue), old(state.poller.PollerExited?)))
                && Grew(DispatcherThread, old(log), log, Repeat(Dispatch(Observe), looks))
                && |log| >= |old(log)| + turns
                && match state.dispatcher.at
                   case TestFinished => looks == 2 * turns
                   case Joining => !state.dispatcher.task.Finished?
                   case _ => false
      ensures done ==>
                && Grew(DispatcherThread, old(log), log,
                        Repeat(Dispatch(Observe), looks) + [Dispatch(Protocol.Join)]
                        + Judgement(outcome != Completed, flag))
                && state.dispatcher == Receiving && Queued(old(state.poller.PollerExited?), old(state.queue))
                && state.history.processed
                   == old(state.history.processed) + [Processed(old(state.dispatcher.job), Ran(outcome))]
                && state.history.reported
                   == if outcome == Panicked && !flag
                      then old(state.history.reported) + [|old(state.history.processed)|]
                      else old(state.history.reported)
      ensures done && outcome == Cancelled ==> flag
      ensures done && flag ==> state.stopped
    {
      ghost var entry := Entry(state.dispatcher.job, state.history.processed, state.history.reported, state.queue,
                               state.poller.PollerExited?);
      hide Next, Told, Grew, Repeat;
      outcome, flag := Completed, false;
      var watching, left;
      watching, left, looks := Watch(entry, turns);
      if watching {
        return false, Completed, false, looks;
      }
      ghost var before := log;
      ghost var more := Decide(entry);
      LookedOn(old(log), before, log, looks, more);
      looks := looks + more;
      before := log;
      AwaitTask(entry, left);
      WaitedOn(old(log), before, log, Repeat(Dispatch(Observe), looks));
      if !state.dispatcher.task.Finished? {
        return false, Completed, false, looks;
      }
      outcome := state.dispatcher.task.outcome;
      flag := Conclude(entry, old(log), looks);
      done := true;
    }

    /** The join, and the judgement of a failure. */
    method Conclude(ghost entry: Entry<M>, ghost start: seq<Event<S>>, ghost looks: nat) returns (flag: bool)
      requires Watching(entry) && Grew(DispatcherThread, start, log, Repeat(Dispatch(Observe), looks))
      requires state.dispatcher.at == Joining && state.dispatcher.task.Finished?
      modifies `state, `log, `turn
      ensures Valid() && state.dispatcher == Receiving && Queued(entry.gone, entry.queue)
      ensures var outcome := old(state.dispatcher.task.outcome);
              && Grew(DispatcherThread, start, log,
                      Repeat(Dispatch(Observe), looks) + [Dispatch(Protocol.Join)]
                      + Judgement(outcome != Completed, flag))
              && state.history.processed == entry.processed + [Processed(entry.job, Ran(outcome))]
              && state.history.reported
                 == (if outcome == Panicked && !flag then entry.reported + [|entry.processed|] else entry.reported)
              && (outcome == Cancelled ==> flag)
      ensures flag ==> state.stopped
    {
      hide Next, Told, Grew, Repeat;
      ghost var own := Repeat<S>(Dispatch(Observe), looks);
      ghost var outcome := state.dispatcher.task.outcome;
      flag := false;
      Join(entry);
      GrewOn(DispatcherThread, start, old(log), log, own, [Dispatch(Protocol.Join)]);
      own := own + [Dispatch(Protocol.Join)];
      assert own + [] == own;
      if state.dispatcher.Judging? {
        ghost var before := log;
        flag := Judge(state.history.processed, entry.reported);
        GrewOn(DispatcherThread, start, before, log, own, Judgement(true, flag));
      }
    }

    static lemma LookedOn(start: seq<Event<S>>, before: seq<Event<S>>, after: seq<Event<S>>, m: nat, n: nat)
      requires Grew(DispatcherThread, start, before, Repeat(Dispatch(Observe), m))
      requires Grew(DispatcherThread, before, after, Repeat(Dispatch(Observe), n))
      ensures Grew(DispatcherThread, start, after, Repeat(Dispatch(Observe), m + n))
    {
      hide Grew;
      GrewOn(DispatcherThread, start, before, after, Repeat(Dispatch(Observe), m), Repeat(Dispatch(Observe), n));
      RepeatMore<S>(Dispatch(Observe), m, n);
    }

    static lemma WaitedOn(start: seq<Event<S>>, before: seq<Event<S>>, after: seq<Event<S>>, own: seq<Step<S>>)
      requires Grew(DispatcherThread, start, before, own) && Grew(DispatcherThread, before, after, [])
      ensures Grew(DispatcherThread, start, after, own)
    {
      hide Grew;
      GrewOn(DispatcherThread, start, before, after, own, []);
      assert own + [] == own;
    }

    /** `recv` on a nonempty queue. */
    method Receive()
      requires Valid() && state.dispatcher == Receiving && |state.queue| > 0
      modifies `state, `log, `turn
      ensures Valid() && |log| == |old(log)| + 1 && Grew(DispatcherThread, old(log), log, [Dispatch(Protocol.Receive)])
      ensures state.dispatcher == Beginning(old(state.queue)[0])
      ensures Queued(old(state.poller.PollerExited?), old(state.queue)[1..])
      ensures state.history.processed == old(state.history.processed)
    {
      hide Told, Grew, ControlOk;
      Take(DispatcherThread, Dispatch(Protocol.Receive));
    }

    /** `recv`, then `begin`. */
    method Begin() returns (granted: bool)
      requires Valid() && state.dispatcher == Receiving && |state.queue| > 0
      modifies `state, `log, `turn
      ensures Valid() && Queued(old(state.poller.PollerExited?), old(state.queue)[1..])
      ensures Grew(DispatcherThread, old(log), log, [Dispatch(Protocol.Receive), Dispatch(Protocol.Begin)])
      ensures |log| == |old(log)| + 2
      ensures if granted then
                && state.dispatcher.InCallback? && state.dispatcher.job == old(state.queue)[0]
                && state.dispatcher.at == TestFinished
                && state.history.processed == old(state.history.processed)
              else
                && state.dispatcher == Receiving
                && state.history.processed == old(state.history.processed) + [Processed(old(state.queue)[0], Skipped)]
    {
      hide Told, Grew, ControlOk;
      Receive();
      ghost var before := log;
      Take(DispatcherThread, Dispatch(Protocol.Begin));
      GrewTwo(DispatcherThread, old(log), before, log, Dispatch(Protocol.Receive), Dispatch(Protocol.Begin));
      granted := state.dispatcher.InCallback?;
    }

    /** `recv` fails: the queue is empty and its sender is gone. */
    method Leave()
      requires Valid() && state.dispatcher == Receiving && |state.queue| == 0 && state.poller.PollerExited?
      modifies `state, `log, `turn
      ensures Valid() && Grew(DispatcherThread, old(log), log, [Dispatch(Disconnect)])
      ensures state.dispatcher == DispatcherExited && state.queue == [] && state.poller.PollerExited?
      ensures SentJobs(state.history.offers) == ProcessedJobs(state.history.processed)
      ensures state.history.processed == old(state.history.processed)
    {
      hide Told, Grew, Inv, Reachable;
      Take(DispatcherThread, Dispatch(Disconnect));
      InRun();
      ControlReachable(config, state);
      AllProcessed(config, state);
    }

    /** The body of the dispatcher's loop: one job is skipped, or its callback runs and is joined. */
    method Serve(turns: nat) returns (served: bool, ghost fate: Fate)
      requires Valid() && state.dispatcher == Receiving && |state.queue| > 0
      modifies `state, `log, `turn
      ensures Valid() && Grown(DispatcherThread, old(log), log) && |log| > |old(log)|
      ensures if served then
                && state.dispatcher == Receiving && Queued(old(state.poller.PollerExited?), old(state.queue)[1..])
                && state.history.processed == old(state.history.processed) + [Processed(old(state.queue)[0], fate)]
              else
                && state.dispatcher.InCallback? && state.dispatcher.job == old(state.queue)[0]
                && state.history.processed == old(state.history.processed) && |log| >= |old(log)| + turns
    {
      hide Next, Told, Grown, Repeat;
      var granted := Begin();
      served, fate := true, Skipped;
      if granted {
        ghost var before := log;
        var outcome, flag;
        ghost var looks;
        served, outcome, flag, looks := RunCallback(turns);
        GrownOn(DispatcherThread, old(log), before, log);
        LaterLog(DispatcherThread, before, log);
        fate := Ran(outcome);
      }
    }

    /** The dispatcher thread, for as many as `turns` turns of its waits. */
    method DispatcherLoop(turns: nat) returns (exited: bool)
      requires Valid() && state.dispatcher == Receiving
      modifies `state, `log, `turn
      ensures Valid() && Grown(DispatcherThread, old(log), log)
      ensures old(state.history.processed) <= state.history.processed
      ensures exited ==> state.dispatcher == DispatcherExited && state.queue == [] && state.poller.PollerExited?
      ensures exited ==> SentJobs(state.history.offers) == ProcessedJobs(state.history.processed)
      ensures !exited ==> |log| >= |old(log)| + turns && (state.dispatcher.InCallback? || state.dispatcher == Receiving)
      ensures !exited && state.dispatcher == Receiving ==>
                Served(old(state.queue), old(state.history.processed), state.history.processed, turns)
      ensures old(state.poller.PollerExited?) && turns > |old(state.queue)| && !exited ==> state.dispatcher.InCallback?
    {
      hide Next, Told, Grown, Grew, SentJobs, ProcessedJobs, Served;
      ServedNone(state.queue, state.history.processed);
      GrownNone(DispatcherThread, log);
      var left: nat := turns;
      ghost var first, before := state.queue, state.history.processed;
      while left > 0
        invariant Valid() && Grown(DispatcherThread, old(log), log) && state.dispatcher == Receiving
        invariant |log| + left >= |old(log)| + turns && left <= turns
        invariant before <= state.history.processed
        invariant Served(first, before, state.history.processed, turns - left)
        invariant first[Least(|first|, |state.history.processed| - |before|)..] <= state.queue
        invariant old(state.poller.PollerExited?) ==>
                    state.poller.PollerExited? && turns - left + |state.queue| == |first|
      {
        left := left - 1;
        ghost var start := log;
        if |state.queue| > 0 {
          ghost var after, head := state.history.processed, state.queue[0];
          var served, fate := Serve(left + 1);
          GrownOn(DispatcherThread, old(log), start, log);
          if !served {
            return false;
          }
          ServedStep(first, before, after, head, fate, turns - left - 1);
        } else if state.poller.PollerExited? {
          Leave();
          GrewIsGrown(DispatcherThread, start, log, [Dispatch(Disconnect)]);
          GrownOn(DispatcherThread, old(log), start, log);
          return true;
        } else {
          Wait(DispatcherThread);
          GrewIsGrown(DispatcherThread, start, log, []);
          GrownOn(DispatcherThread, old(log), start, log);
          ServedIdle(first, before, state.history.processed, turns - left - 1);
        }
      }
      return false;
    }

    // ---------- The poller ----------

    /** The loop over the samples of one batch: each step examines, offers or reports, until nothing is in hand. */
    method HandleBatch() returns (ghost moves: seq<Step<S>>)
      requires Valid() && state.poller.Batch? && state.history.examined <= |state.history.taken|
      modifies `state, `log, `turn
      ensures Valid() && Grew(PollerThread, old(log), log, moves)
      ensures forall i :: 0 <= i < |moves| ==> moves[i] == Poll(Advance) || moves[i] == Poll(RecordRefusal)
      ensures state.poller == Waiting && state.history.taken == old(state.history.taken)
      ensures state.history.failedTakes == old(state.history.failedTakes)
      ensures state.history.examined == |state.history.taken|
    {
      hide Told, Grew;
      moves := [];
      GrewNone(PollerThread, log);
      while !state.poller.Waiting?
        invariant Valid() && Grew(PollerThread, old(log), log, moves)
        invariant forall i :: 0 <= i < |moves| ==> moves[i] == Poll(Advance) || moves[i] == Poll(RecordRefusal)
        invariant state.poller.Waiting? || state.poller.Batch? || state.poller.Refused?
        invariant state.history.taken == old(state.history.taken)
        invariant state.history.failedTakes == old(state.history.failedTakes)
        invariant state.history.examined <= |state.history.taken|
        invariant state.poller.Waiting? ==> state.history.examined == |state.history.taken|
        decreases |state.history.taken| - state.history.examined,
                  if state.poller.Waiting? then 0 else OffersLeft(state.poller) + 1
      {
        ghost var before, sofar := log, moves;
        var step := if state.poller.Refused? then RecordRefusal else Advance;
        BatchMoves(config, state, step);
        hide PollerNext;
        Take(PollerThread, Poll(step));
        moves := moves + [Poll(step)];
        GrewOn(PollerThread, old(log), before, log, sofar, [Poll(step)]);
      }
    }

    /**
     One turn of the poller's loop. It leaves when the stop flag is up; otherwise it takes what the reader returns and
     decides every sample of it, and then what has been offered is the flattening of all snapshots.
     */
    method PollerTurn(result: TakeResult<S>) returns (left: bool, ghost moves: seq<Step<S>>)
      requires Valid() && state.poller == Waiting
      requires result.Samples? ==> |result.samples| <= config.maxSamples
      modifies `state, `log, `turn
      ensures Valid() && |log| > |old(log)|
      ensures forall i :: 0 <= i < |moves| ==> moves[i] == Poll(Advance) || moves[i] == Poll(RecordRefusal)
      ensures Grew(PollerThread, old(log), log,
                   if left then [Poll(Wake)] else [Poll(Wake), Poll(PollerStep.Take(result))] + moves)
      ensures left == old(state.stopped)
      ensures left ==>
                && state.poller == PollerExited(false, []) && state.stopped
                && state.history.taken == old(state.history.taken)
                && state.history.failedTakes == old(state.history.failedTakes)
      ensures !left ==>
                && state.poller == Waiting && state.history.examined == |state.history.taken|
                && state.history.taken == old(state.history.taken) + (if result.Samples? then result.samples else [])
                && state.history.failedTakes == old(state.history.failedTakes) + (if result.TakeFailed? then 1 else 0)
                && SnapshotSamples(state.history.snapshots)
                   == AcceptedUpTo(config, state.history.taken, |state.history.taken|)
                && OfferedJobs(state.history.offers) == Flatten(state.history.snapshots)
    {
      hide Told, Grew, Inv, Reachable, SnapshotSamples, AcceptedUpTo, OfferedJobs, Flatten;
      InRun();
      ControlReachable(config, state);
      hide ControlOk;
      moves := [];
      left := state.stopped;
      ghost var start := log;
      Take(PollerThread, Poll(Wake));
      if left {
        return;
      }
      ghost var before := log;
      Take(PollerThread, Poll(PollerStep.Take(result)));
      GrewTwo(PollerThread, start, before, log, Poll(Wake), Poll(PollerStep.Take(result)));
      ghost var own: seq<Step<S>> := [Poll(Wake), Poll(PollerStep.Take(result))];
      assert own + [] == own;
      if state.poller.Batch? {
        before := log;
        moves := HandleBatch();
        GrewOn(PollerThread, start, before, log, own, moves);
      }
      LongerLog(PollerThread, start, log, own + moves);
      InRun();
      DeliveryOrder(config, state);
      assert OfferedJobs(state.history.offers) + [] == OfferedJobs(state.history.offers);
    }

    static lemma LongerLog(actor: Actor, before: seq<Event<S>>, after: seq<Event<S>>, own: seq<Step<S>>)
      requires Grew(actor, before, after, own)
      ensures Grown(actor, before, after) && |before| <= |after| && (own != [] ==> |before| < |after|)
    {
    }

    /** What the reader returns in its first `n` takes. */
    static ghost function Read(reader: nat -> TakeResult<S>, n: nat): seq<Option<S>> {
      if n == 0 then [] else Read(reader, n - 1) + (if reader(n - 1).Samples? then reader(n - 1).samples else [])
    }

    static ghost function Failures(reader: nat -> TakeResult<S>, n: nat): nat {
      if n == 0 then 0 else Failures(reader, n - 1) + (if reader(n - 1).TakeFailed? then 1 else 0)
    }

    /**
     The poller thread, for as many as `turns` turns of its loop: what it has taken is what the reader returned in those
     turns, in that order, and each failed take is counted.
     */
    method PollerLoop(reader: nat -> TakeResult<S>, turns: nat) returns (left: bool, ghost takes: nat)
      requires Valid() && state.poller == Waiting
      requires forall k :: reader(k).Samples? ==> |reader(k).samples| <= config.maxSamples
      modifies `state, `log, `turn
      ensures Valid() && Grown(PollerThread, old(log), log) && |log| >= |old(log)| + (if left then 1 else turns)
      ensures if left then state.poller == PollerExited(false, []) && state.stopped else state.poller == Waiting
      ensures if left then takes < turns else takes == turns
      ensures state.history.taken == old(state.history.taken) + Read(reader, takes)
      ensures state.history.failedTakes == old(state.history.failedTakes) + Failures(reader, takes)
      ensures old(state.stopped) && turns > 0 ==> left && takes == 0
    {
      hide Told, Grown, Grew, Next, Read, Failures, SnapshotSamples, AcceptedUpTo, OfferedJobs, Flatten;
      GrownNone(PollerThread, log);
      ReadNone(state.history.taken, reader);
      takes := 0;
      for k := 0 to turns
        invariant Valid() && Grown(PollerThread, old(log), log) && |log| >= |old(log)| + k && takes == k
        invariant state.poller == Waiting && (old(state.stopped) ==> k == 0)
        invariant k == 0 ==> state == old(state)
        invariant state.history.taken == old(state.history.taken) + Read(reader, k)
        invariant state.history.failedTakes == old(state.history.failedTakes) + Failures(reader, k)
      {
        ghost var before, taken := log, state.history.taken;
        ghost var moves;
        left, moves := PollerTurn(reader(k));
        LongerLog(PollerThread, before, log,
                  if left then [Poll(Wake)] else [Poll(Wake), Poll(PollerStep.Take(reader(k)))] + moves);
        GrownOn(PollerThread, old(log), before, log);
        if left {
          return;
        }
        ReadMore(old(state.history.taken), taken, state.history.taken, reader, k);
        takes := takes + 1;
      }
      left := false;
    }

    static lemma ReadMore(start: seq<Option<S>>, taken: seq<Option<S>>, after: seq<Option<S>>,
                          reader: nat -> TakeResult<S>, k: nat)
      requires taken == start + Read(reader, k)
      requires after == taken + (if reader(k).Samples? then reader(k).samples else [])
      ensures after == start + Read(reader, k + 1)
      ensures Failures(reader, k + 1) == Failures(reader, k) + (if reader(k).TakeFailed? then 1 else 0)
    {
    }

    static lemma ReadNone(taken: seq<Option<S>>, reader: nat -> TakeResult<S>)
      ensures taken == taken + Read(reader, 0) && Failures(reader, 0) == 0
    {
    }

    // ---------- A thread that calls `unregister` ----------

    /** The call of `thread` on generation `id` waits, its flag down. */
    ghost predicate InWait(thread: nat, id: nat)
      reads this
    {
      Valid() && thread in state.calls && state.calls[thread].reg == id && !state.calls[thread].Removed?
    }

    /** The call has returned, and its generation is retired. */
    ghost predicate Returned(thread: nat, id: nat)
      reads this
    {
      Valid() && thread !in state.calls && id in state.history.retired
    }

    /** At position `k` of the log a token of generation `id` is out. */
    ghost predicate TokenAt(events: seq<Event<S>>, k: nat, id: nat)
      requires k <= |events|
    {
      var told := Told(config, others, events[..k]);
      told.Some? && id in told.value.registry.tokens
    }

    /** From position `first` on a token of `id` is out at every event, but for the last one if `over`. */
    ghost predicate TokenOut(events: seq<Event<S>>, first: nat, id: nat, over: bool) {
      forall k: nat :: first <= k < |events| ==> (TokenAt(events, k, id) <==> !(over && k == |events| - 1))
    }

    lemma TokenOutMore(before: seq<Event<S>>, after: seq<Event<S>>, first: nat, id: nat, over: bool)
      requires TokenOut(before, first, id, false) && first <= |before| && before < after && |after| == |before| + 1
      requires TokenAt(before, |before|, id) <==> !over
      ensures TokenOut(after, first, id, over)
    {
      hide Told;
      forall k: nat | first <= k < |after|
        ensures TokenAt(after, k, id) <==> !(over && k == |after| - 1)
      {
        assert after[..k] == before[..k];
        assert TokenAt(after, k, id) <==> TokenAt(before, k, id);
      }
    }

    lemma TokenNow(id: nat)
      requires Valid()
      ensures TokenAt(log, |log|, id) <==> id in state.registry.tokens
    {
      hide Told;
      assert log[..|log|] == log;
    }

    lemma ParkedToken(thread: nat, id: nat)
      requires InWait(thread, id) && state.calls[thread].Parked?
      ensures id in state.registry.tokens
    {
      hide Told, Reachable, Inv;
      InRun();
      NoLostWakeup(config, state, id);
    }

    /**
     One turn of the wait: a woken caller looks again; one that is not woken has to wait. The call returns exactly when
     it finds no token.
     */
    method Recheck(thread: nat, ghost id: nat) returns (ghost looked: nat)
      requires InWait(thread, id)
      modifies `state, `log, `turn
      ensures if id in old(state.registry.tokens) then InWait(thread, id) else Returned(thread, id)
      ensures looked <= 1 && old(log) < log && |log| == |old(log)| + 1
      ensures Grew(CallerThread(thread), old(log), log, Repeat(Api(Protocol.Recheck(thread)), looked))
    {
      hide Told, Grew, ControlOk, Repeat;
      RepeatMore<S>(Api(Protocol.Recheck(thread)), 0, 0);
      if state.calls[thread].Woken? {
        Take(CallerThread(thread), Api(Protocol.Recheck(thread)));
        looked := 1;
      } else {
        ParkedToken(thread, id);
        Wait(CallerThread(thread));
        looked := 0;
      }
    }

    /** The first half of `deactivate_and_wait`: the flag goes down, and the call returns at once if no token is out. */
    method LowerFlag(thread: nat, ghost id: nat)
      requires Valid() && thread in state.calls && state.calls[thread] == Removed(id)
      modifies `state, `log, `turn
      ensures if id in old(state.registry.tokens) then InWait(thread, id) else Returned(thread, id)
      ensures old(log) < log && |log| == |old(log)| + 1
      ensures Grew(CallerThread(thread), old(log), log, [Api(Deactivate(thread))])
    {
      hide Told, Grew, ControlOk;
      Take(CallerThread(thread), Api(Deactivate(thread)));
    }

    /**
     `deactivate_and_wait`, for as many as `turns` turns of its wait: the flag goes down, and each time the caller is
     woken it looks again. It returns at the first event that finds no token out.
     */
    method DeactivateAndWait(thread: nat, turns: nat, ghost id: nat) returns (returned: bool, ghost looks: nat)
      requires Valid() && thread in state.calls && state.calls[thread] == Removed(id)
      modifies `state, `log, `turn
      ensures if returned then Returned(thread, id) else InWait(thread, id) && |log| == |old(log)| + 1 + turns
      ensures Grew(CallerThread(thread), old(log), log,
                   [Api(Deactivate(thread))] + Repeat(Api(Protocol.Recheck(thread)), looks))
      ensures TokenOut(log, |old(log)|, id, returned)
    {
      hide Told, Grew, Repeat, Next, Kept, TokenAt, TokenOut;
      TokenNow(id);
      TokenOutNone(log, id);
      LowerFlag(thread, id);
      returned := thread !in state.calls;
      TokenOutMore(old(log), log, |old(log)|, id, returned);
      RepeatMore<S>(Api(Protocol.Recheck(thread)), 0, 0);
      looks := 0;
      ghost var own: seq<Step<S>> := [Api(Deactivate(thread))];
      assert own + [] == own;
      var left: nat := turns;
      while !returned && left > 0
        invariant if returned then Returned(thread, id) else InWait(thread, id)
        invariant |log| >= |old(log)| && (!returned ==> |log| == |old(log)| + 1 + turns - left)
        invariant Grew(CallerThread(thread), old(log), log, own + Repeat(Api(Protocol.Recheck(thread)), looks))
        invariant TokenOut(log, |old(log)|, id, returned)
      {
        ghost var before := log;
        TokenNow(id);
        ghost var looked := Recheck(thread, id);
        returned := thread !in state.calls;
        TokenOutMore(before, log, |old(log)|, id, returned);
        LookedAgain(thread, old(log), before, log, own, looks, looked);
        looks := looks + looked;
        left := left - 1;
      }
    }

    lemma TokenOutNone(events: seq<Event<S>>, id: nat)
      ensures TokenOut(events, |events|, id, false)
    {
    }

    static lemma LookedAgain(thread: nat, start: seq<Event<S>>, before: seq<Event<S>>, after: seq<Event<S>>,
                             own: seq<Step<S>>, m: nat, n: nat)
      requires Grew(CallerThread(thread), start, before, own + Repeat(Api(Protocol.Recheck(thread)), m))
      requires Grew(CallerThread(thread), before, after, Repeat(Api(Protocol.Recheck(thread)), n))
      ensures Grew(CallerThread(thread), start, after, own + Repeat(Api(Protocol.Recheck(thread)), m + n))
    {
      hide Grew;
      var again: Step<S> := Api(Protocol.Recheck(thread));
      GrewOn(CallerThread(thread), start, before, after, own + Repeat(again, m), Repeat(again, n));
      RepeatMore(again, m, n);
      assert own + Repeat(again, m) + Repeat(again, n) == own + (Repeat(again, m) + Repeat(again, n));
    }

    /**
     `unregister`: NotFound at once, or Ok when the wait is over; then the generation taken out of the list is
     inactive, idle and retired. It returns at the first event after the removal that finds no token out.
     */
    method Unregister(thread: nat, key: Key, turns: nat)
      returns (returned: bool, result: Result<(), ListenerRegistry.StatusCode>, ghost looks: nat)
      requires Valid() && state.closing == Open && thread !in state.calls
      requires thread == CALLBACK ==> CallbackBody(state)
      modifies `state, `log, `turn
      ensures Valid()
      ensures match old(state.registry.Find(key))
              case None =>
                && returned && result == Err(ListenerRegistry.NotFound)
                && Grew(CallerThread(thread), old(log), log, [Api(Protocol.Unregister(thread, key))])
                && state == Interfered(config, CallerThread(thread),
                                       old(state).(history := Heard(old(state), UnregisterEvent(key, false))),
                                       others(old(turn)))
              case Some(index) =>
                var id := old(state.registry.entries)[index];
                && result == Ok(())
                && Grew(CallerThread(thread), old(log), log,
                        [Api(Protocol.Unregister(thread, key)), Api(Deactivate(thread))]
                        + Repeat(Api(Protocol.Recheck(thread)), looks))
                && id !in state.registry.active && id !in state.registry.entries
                && TokenOut(log, |old(log)| + 1, id, returned)
                && (returned ==> Returned(thread, id) && id !in state.registry.tokens)
                && (!returned ==> InWait(thread, id) && |log| == |old(log)| + 2 + turns)
    {
      var position := state.registry.Find(key);
      hide Told, Grew, ControlOk, Inv, Reachable, Interfered, Repeat, TokenOut;
      looks := 0;
      Take(CallerThread(thread), Api(Protocol.Unregister(thread, key)));
      if position.None? {
        return true, Err(ListenerRegistry.NotFound), 0;
      }
      ghost var id, before := state.calls[thread].reg, log;
      hide Next, Kept;
      returned, looks := DeactivateAndWait(thread, turns, id);
      result := Ok(());
      UnregisterSteps(thread, key, old(log), before, log, looks);
      InRun();
      if returned {
        RetiredIsQuiet(config, state, id);
      } else {
        WaiterIsOut(config, state, thread);
      }
    }

    static lemma UnregisterSteps(thread: nat, key: Key, start: seq<Event<S>>, before: seq<Event<S>>,
                                 after: seq<Event<S>>, looks: nat)
      requires Grew(CallerThread(thread), start, before, [Api(Protocol.Unregister(thread, key))])
      requires Grew(CallerThread(thread), before, after,
                    [Api(Deactivate(thread))] + Repeat(Api(Protocol.Recheck(thread)), looks))
      ensures Grew(CallerThread(thread), start, after,
                   [Api(Protocol.Unregister(thread, key)), Api(Deactivate(thread))]
                   + Repeat(Api(Protocol.Recheck(thread)), looks))
    {
      hide Grew;
      var first: Step<S>, second: Step<S> := Api(Protocol.Unregister(thread, key)), Api(Deactivate(thread));
      var again := Repeat<S>(Api(Protocol.Recheck(thread)), looks);
      GrewOn(CallerThread(thread), start, before, after, [first], [second] + again);
      assert [first] + ([second] + again) == [first, second] + again;
    }

    // ---------- The thread that drops the transport ----------

    /** The dropping thread stands here; it is not the callback. */
    ghost predicate Dropping(closing: Closing)
      reads this
    {
      Valid() && state.closing == closing && closing != Open && state.stopped && !state.inside
    }

    /** A turn in which the dropping thread only waits. */
    method WaitDropping(ghost own: seq<Step<S>>, ghost start: seq<Event<S>>)
      requires Dropping(state.closing) && Blocked(state) && Grew(DroppingThread, start, log, own)
      modifies `state, `log, `turn
      ensures Dropping(state.closing) && Grew(DroppingThread, start, log, own)
      ensures old(log) <= log && |log| == |old(log)| + 1
      ensures DroppingKept(old(state), state)
    {
      hide Told, Grew;
      ghost var before := log;
      Wait(DroppingThread);
      GrewOn(DroppingThread, start, before, log, own, []);
      assert own + [] == own;
    }

    /** A turn in which it takes its next step. */
    method TakeDropping(step: CloseStep, ghost own: seq<Step<S>>, ghost start: seq<Event<S>>)
      requires Dropping(state.closing) && Grew(DroppingThread, start, log, own)
      requires !step.SpuriousNext? && CloseNext(state, step).Some?
      modifies `state, `log, `turn
      ensures Dropping(state.closing) && Grew(DroppingThread, start, log, own + [Close(step)])
      ensures old(log) <= log && |log| == |old(log)| + 1
      ensures DroppingKept(CloseNext(old(state), step).value, state)
    {
      hide Told, Grew, CloseNext;
      ghost var before := log;
      ghost var mid := CloseWrites(state, step);
      ClosingGoesOn(state, step);
      Take(DroppingThread, Close(step));
      GrewOn(DroppingThread, start, before, log, own, [Close(step)]);
    }

    /** `join_worker` on the poller. */
    method JoinPoller(turns: nat, ghost own: seq<Step<S>>, ghost start: seq<Event<S>>) returns (joined: bool)
      requires Dropping(JoiningPoller) && Grew(DroppingThread, start, log, own)
      modifies `state, `log, `turn
      ensures Dropping(if joined then TakingEntries else JoiningPoller) && old(log) <= log
      ensures Grew(DroppingThread, start, log, if joined then own + [Close(Protocol.JoinPoller)] else own)
      ensures !joined ==> Blocked(state) && |log| == |old(log)| + turns
      ensures state.registry.entries == old(state.registry.entries)
    {
      hide Told, Grew;
      var left: nat := turns;
      while !state.poller.PollerExited? && left > 0
        invariant Dropping(JoiningPoller) && Grew(DroppingThread, start, log, own)
        invariant old(log) <= log && left <= turns && |log| == |old(log)| + turns - left
        invariant state.registry.entries == old(state.registry.entries)
      {
        WaitDropping(own, start);
        left := left - 1;
      }
      joined := state.poller.PollerExited?;
      if joined {
        TakeDropping(Protocol.JoinPoller, own, start);
      }
    }

    lemma ClosingToken(rest: seq<nat>)
      requires Dropping(CloseParked(rest)) && rest != []
      ensures rest[0] in state.registry.tokens
    {
      hide Told, Reachable, Inv;
      InRun();
      NoLostWakeup(config, state, rest[0]);
    }

    /** One turn of that wait. The entry is done with exactly when no token of it is found. */
    method RecheckFirst(ghost rest: seq<nat>, ghost own: seq<Step<S>>, ghost start: seq<Event<S>>)
      returns (ghost looked: nat)
      requires Dropping(state.closing) && rest != [] && Grew(DroppingThread, start, log, own)
      requires state.closing == CloseParked(rest) || state.closing == CloseWoken(rest)
      modifies `state, `log, `turn
      ensures Dropping(state.closing) && old(log) < log && |log| == |old(log)| + 1 && looked <= 1
      ensures if rest[0] in old(state.registry.tokens)
              then state.closing == CloseParked(rest) || state.closing == CloseWoken(rest)
              else state.closing == Deactivating(rest[1..])
      ensures Grew(DroppingThread, start, log, own + Repeat(Close(RecheckNext), looked))
    {
      hide Told, Grew, Repeat;
      RepeatMore<S>(Close(RecheckNext), 0, 0);
      assert own + [] == own;
      if state.closing.CloseWoken? {
        TakeDropping(RecheckNext, own, start);
        looked := 1;
      } else {
        ClosingToken(rest);
        WaitDropping(own, start);
        looked := 0;
      }
    }

    /**
     `deactivate_and_wait` on the first entry held: the flag goes down, and each time it is woken it looks again. The
     entry is done with at the first event that finds no token of it out.
     */
    method RetireFirst(ghost rest: seq<nat>, turns: nat, ghost own: seq<Step<S>>, ghost start: seq<Event<S>>)
      returns (retired: bool, ghost looks: nat)
      requires Dropping(Deactivating(rest)) && rest != [] && Grew(DroppingThread, start, log, own)
      modifies `state, `log, `turn
      ensures Dropping(state.closing) && old(log) <= log
      ensures if retired then state.closing == Deactivating(rest[1..])
              else (state.closing == CloseParked(rest) || state.closing == CloseWoken(rest))
                   && |log| == |old(log)| + 1 + turns
      ensures Grew(DroppingThread, start, log, own + [Close(DeactivateNext)] + Repeat(Close(RecheckNext), looks))
      ensures TokenOut(log, |old(log)|, rest[0], retired)
    {
      hide Told, Grew, Repeat, TokenOut, TokenAt;
      TokenNow(rest[0]);
      TokenOutNone(log, rest[0]);
      TakeDropping(DeactivateNext, own, start);
      retired := state.closing.Deactivating?;
      TokenOutMore(old(log), log, |old(log)|, rest[0], retired);
      ghost var first := own + [Close(DeactivateNext)];
      RepeatMore<S>(Close(RecheckNext), 0, 0);
      assert first + [] == first;
      looks := 0;
      hide Next, CloseNext;
      var left: nat := turns;
      while !retired && left > 0
        invariant Dropping(state.closing) && left <= turns && old(log) <= log
        invariant if retired then state.closing == Deactivating(rest[1..])
                  else (state.closing == CloseParked(rest) || state.closing == CloseWoken(rest))
                       && |log| == |old(log)| + 1 + turns - left
        invariant Grew(DroppingThread, start, log, first + Repeat(Close(RecheckNext), looks))
        invariant TokenOut(log, |old(log)|, rest[0], retired)
      {
        ghost var before := log;
        TokenNow(rest[0]);
        ghost var looked := RecheckFirst(rest, first + Repeat(Close(RecheckNext), looks), start);
        retired := state.closing.Deactivating?;
        TokenOutMore(before, log, |old(log)|, rest[0], retired);
        RepeatMore<S>(Close(RecheckNext), looks, looked);
        assert first + Repeat(Close(RecheckNext), looks) + Repeat(Close(RecheckNext), looked)
               == first + (Repeat(Close(RecheckNext), looks) + Repeat(Close(RecheckNext), looked));
        looks := looks + looked;
        left := left - 1;
      }
    }

    /** `deactivate_all`: the list is taken, then its entries are deactivated and waited for one by one. */
    method DeactivateAll(turns: nat, ghost own: seq<Step<S>>, ghost start: seq<Event<S>>)
      returns (done: bool, ghost retires: seq<Step<S>>)
      requires Dropping(TakingEntries) && Grew(DroppingThread, start, log, own)
      modifies `state, `log, `turn
      ensures Dropping(state.closing) && old(log) <= log
      ensures Grew(DroppingThread, start, log, own + [Close(TakeEntries)] + retires) && Retires(retires)
      ensures done ==>
                state.closing == JoiningDispatcher && Deactivations(retires) == |old(state.registry.entries)| + 1
      ensures !done ==>
                && (state.closing.CloseParked? || state.closing.CloseWoken?) && |log| >= |old(log)| + turns
                && Deactivations(retires) + |state.closing.rest| == |old(state.registry.entries)| + 1
    {
      hide Told, Grew, Repeat, Deactivations, Retires;
      TakeDropping(TakeEntries, own, start);
      ghost var first := own + [Close(TakeEntries)];
      retires := [];
      RetiresNone<S>();
      assert first + [] == first;
      done := true;
      while done && |state.closing.rest| > 0
        invariant Dropping(state.closing) && old(log) <= log
        invariant Grew(DroppingThread, start, log, first + retires) && Retires(retires)
        invariant done ==> state.closing.Deactivating?
        invariant !done ==> state.closing.CloseParked? || state.closing.CloseWoken?
        invariant !done ==> |log| >= |old(log)| + turns
        invariant Deactivations(retires) + |state.closing.rest|
                  == |old(state.registry.entries)| + (if done then 0 else 1)
        decreases done, if done then |state.closing.rest| else 0
      {
        ghost var looks;
        done, looks := RetireFirst(state.closing.rest, turns, first + retires, start);
        RetiresMore(retires, looks);
        assert first + retires + [Close(DeactivateNext)] + Repeat(Close(RecheckNext), looks)
               == first + (retires + [Close(DeactivateNext)] + Repeat(Close(RecheckNext), looks));
        retires := retires + [Close(DeactivateNext)] + Repeat(Close(RecheckNext), looks);
      }
      if done {
        TakeDropping(DeactivateNext, first + retires, start);
        RetiresMore(retires, 0);
        RepeatMore<S>(Close(RecheckNext), 0, 0);
        ghost var more := retires + [Close(DeactivateNext)];
        assert more + [] == more && first + retires + [Close(DeactivateNext)] == first + more;
        retires := more;
      }
    }

    /** `join_worker` on the dispatcher. */
    method JoinDispatcher(turns: nat, ghost own: seq<Step<S>>, ghost start: seq<Event<S>>) returns (joined: bool)
      requires Dropping(JoiningDispatcher) && Grew(DroppingThread, start, log, own)
      modifies `state, `log, `turn
      ensures Dropping(if joined then Closed else JoiningDispatcher) && old(log) <= log
      ensures Grew(DroppingThread, start, log, if joined then own + [Close(Protocol.JoinDispatcher)] else own)
      ensures !joined ==> Blocked(state) && |log| == |old(log)| + turns
    {
      hide Told;
      var left: nat := turns;
      while !state.dispatcher.DispatcherExited? && left > 0
        invariant Dropping(JoiningDispatcher) && Grew(DroppingThread, start, log, own)
        invariant old(log) <= log && left <= turns && |log| == |old(log)| + turns - left
      {
        WaitDropping(own, start);
        left := left - 1;
      }
      joined := state.dispatcher.DispatcherExited?;
      if joined {
        TakeDropping(Protocol.JoinDispatcher, own, start);
      }
    }

    /** What the dropping thread has done itself when it stands here; `retires` are its steps on the entries. */
    static ghost function DropSteps(closing: Closing, retires: seq<Step<S>>): seq<Step<S>> {
      match closing
      case JoiningPoller => [Close(Stop(false))]
      case Closed =>
        [Close(Stop(false)), Close(Protocol.JoinPoller), Close(TakeEntries)] + retires
        + [Close(Protocol.JoinDispatcher)]
      case _ => [Close(Stop(false)), Close(Protocol.JoinPoller), Close(TakeEntries)] + retires
    }

    /**
     The drop, for as many as `turns` turns of each of its waits: stop, join the poller, take the entries and retire
     each of them, join the dispatcher, with turns of the others in between. They may serve the queue until
     `deactivate_all` has returned, which is at position `at` of the log in state `quiet`; from there to the end no
     callback begins, and what is then still queued is skipped.
     */
    method Drop(turns: nat)
      returns (done: bool, ghost retires: seq<Step<S>>, ghost at: nat, ghost quiet: State<S, M>)
      requires Valid() && state.closing == Open && state.calls == map[]
      modifies `state, `log, `turn
      ensures Dropping(state.closing)
      ensures Grew(DroppingThread, old(log), log, DropSteps(state.closing, retires)) && Retires(retires)
      ensures !done ==> (Blocked(state) || state.closing.CloseWoken?) && |log| > |old(log)| + turns
      ensures done ==> Finished() && Deactivations(retires) == |old(state.registry.entries)| + 1
      ensures done ==>
                && |old(log)| < at <= |log| && Told(config, others, log[..at]) == Some(quiet)
                && quiet.closing == JoiningDispatcher && QuietFrom(quiet)
    {
      hide Told, Grew, Inv, Reachable, Retires, Deactivations;
      RetiresNone<S>();
      retires, at, quiet := [], |log|, state;
      Take(DroppingThread, Close(Stop(false)));
      hide Next, ControlOk;
      ghost var own: seq<Step<S>> := [Close(Stop(false))];
      done := JoinPoller(turns, own, old(log));
      if !done {
        return;
      }
      own := own + [Close(Protocol.JoinPoller)];
      done, retires := DeactivateAll(turns, own, old(log));
      own := own + [Close(TakeEntries)] + retires;
      assert own == [Close(Stop(false)), Close(Protocol.JoinPoller), Close(TakeEntries)] + retires;
      if !done {
        return;
      }
      at, quiet := |log|, state;
      ghost var first := log;
      done := JoinDispatcher(turns, own, old(log));
      if done {
        assert log[..at] == first;
        FromThenOn(first, quiet);
      }
    }

    /** Nothing has begun since `quiet`, and all that was queued then has met its fate without running. */
    ghost predicate QuietFrom(quiet: State<S, M>)
      reads this
    {
      && state.history.started == quiet.history.started && state.history.offers == quiet.history.offers
      && RanJobs(state.history.processed) == RanJobs(quiet.history.processed) + CallbackJob(quiet.dispatcher)
    }

    lemma FromThenOn(first: seq<Event<S>>, quiet: State<S, M>)
      requires Valid() && first <= log && Told(config, others, first) == Some(quiet)
      requires AllDeactivated(quiet) && state.closing == Closed
      ensures QuietFrom(quiet) && Finished()
    {
      hide Told, After, Reachable, RanJobs, Inv, Next;
      ToldReachable(config, others, first, quiet);
      ToldReaches(config, others, first, quiet, log, state);
      var steps: seq<Step<S>> :| After(config, quiet, steps) == Some(state);
      QuietForever(config, quiet, steps, state);
      ClosedIsFinal(config, state, Dispatch(Protocol.Receive));
      DeactivatedAll(config, state);
      HealthAccounted(config, state);
      assert RanJobs(state.history.processed) + [] == RanJobs(state.history.processed);
    }

    /** What the drop leaves behind. */
    ghost predicate Finished()
      reads this
    {
      && state.closing == Closed && state.queue == []
      && state.registry.active == {} && state.registry.entries == [] && state.registry.tokens == multiset{}
      && SentJobs(state.history.offers) == ProcessedJobs(state.history.processed)
      && Count(state.health, WorkerPanic) == Bit(state.poller.PollerExited? && state.poller.panicked)
    }

    // ---------- Logs ----------

    static lemma LaterLog(actor: Actor, before: seq<Event<S>>, after: seq<Event<S>>)
      requires Grown(actor, before, after)
      ensures |before| <= |after|
    {
    }

    static lemma GrownNone(actor: Actor, log: seq<Event<S>>)
      ensures Grown(actor, log, log)
    {
    }

    static lemma GrewIsGrown(actor: Actor, before: seq<Event<S>>, after: seq<Event<S>>, own: seq<Step<S>>)
      requires Grew(actor, before, after, own)
      ensures Grown(actor, before, after)
    {
    }
  }

  function Least(a: nat, b: nat): nat {
    if a < b then a else b
  }

  /** Of the jobs queued at first, as many as `turns` are processed, in the order of the queue. */
  ghost predicate Served<M>(first: seq<Job<M>>, before: seq<Processed<M>>, after: seq<Processed<M>>, turns: nat) {
    && |before| + Least(|first|, turns) <= |after|
    && forall i :: |before| <= i < |after| && i - |before| < |first| ==> after[i].job == first[i - |before|]
  }

  lemma ServedNone<M>(first: seq<Job<M>>, before: seq<Processed<M>>)
    ensures Served(first, before, before, 0)
  {
  }

  /** One more turn: the head of the queue is processed. */
  lemma ServedStep<M>(first: seq<Job<M>>, before: seq<Processed<M>>, after: seq<Processed<M>>, head: Job<M>, fate: Fate,
                      turns: nat)
    requires Served(first, before, after, turns) && |before| <= |after|
    requires |after| - |before| < |first| ==> first[|after| - |before|] == head
    ensures Served(first, before, after + [Processed(head, fate)], turns + 1)
  {
  }

  /** Or nothing is left of the first queue. */
  lemma ServedIdle<M>(first: seq<Job<M>>, before: seq<Processed<M>>, after: seq<Processed<M>>, turns: nat)
    requires Served(first, before, after, turns) && |before| + |first| <= |after|
    ensures Served(first, before, after, turns + 1)
  {
  }

  /** What a step on a batch does to the place of the poller. */
  lemma BatchMoves<S, M>(c: Config<S, M>, s: State<S, M>, step: PollerStep<S>)
    requires (s.poller.Batch? && step == Advance) || (s.poller.Refused? && step == RecordRefusal)
    requires s.history.examined <= |s.history.taken|
    ensures PollerNext(c, s, step).Some?
    ensures var t := PollerNext(c, s, step).value;
            && (t.poller.Waiting? || t.poller.Batch? || t.poller.Refused?)
            && t.history.taken == s.history.taken && t.history.examined <= |t.history.taken|
            && t.history.failedTakes == s.history.failedTakes
            && (t.poller.Waiting? ==> t.history.examined == |t.history.taken|)
            && (t.history.examined > s.history.examined
                || (t.history.examined == s.history.examined
                    && (t.poller.Waiting? || OffersLeft(t.poller) < OffersLeft(s.poller))))
  {
    hide Chosen, JobsFor, Accepted, Malformed;
  }

  lemma ClosingGoesOn<S, M>(s: State<S, M>, step: CloseStep)
    requires s.closing != Open && CloseNext(s, step).Some?
    ensures CloseNext(s, step).value.closing != Open
  {
  }

  /** Steps of `deactivate_all` on its entries: a flag goes down, or a woken thread looks again. */
  ghost predicate Retires<S>(steps: seq<Step<S>>) {
    forall i :: 0 <= i < |steps| ==> steps[i] == Close(DeactivateNext) || steps[i] == Close(RecheckNext)
  }

  ghost function Deactivations<S>(steps: seq<Step<S>>): nat {
    if steps == [] then 0
    else Deactivations(steps[..|steps| - 1]) + Bit(steps[|steps| - 1] == Close(DeactivateNext))
  }

  lemma RetiresNone<S>()
    ensures Retires<S>([]) && Deactivations<S>([]) == 0
  {
  }

  lemma {:induction false} RetiresMore<S>(steps: seq<Step<S>>, looks: nat)
    requires Retires(steps)
    ensures var more := steps + [Close(DeactivateNext)] + Repeat(Close(RecheckNext), looks);
            Retires(more) && Deactivations(more) == Deactivations(steps) + 1
  {
    var more := steps + [Close(DeactivateNext)];
    if looks == 0 {
      assert more[..|steps|] == steps;
      assert more + Repeat(Close(RecheckNext), 0) == more;
    } else {
      RetiresMore(steps, looks - 1);
      var all := more + Repeat(Close(RecheckNext), looks);
      assert all[..|all| - 1] == more + Repeat(Close(RecheckNext), looks - 1);
    }
  }

  lemma CancelNeedsStop<S, M>(c: Config<S, M>, s: State<S, M>)
    requires Inv(c, s) && s.dispatcher.InCallback? && s.dispatcher.task == Finished(Cancelled)
    ensures s.stopped
  {
    hide RegsOk, JobsOk;
  }

  lemma AllProcessed<S, M>(c: Config<S, M>, s: State<S, M>)
    requires Inv(c, s) && s.dispatcher.DispatcherExited? && s.queue == []
    ensures SentJobs(s.history.offers) == ProcessedJobs(s.history.processed)
  {
    hide RegsOk, OffersOk, StartsOk, DropsOk, PanicsOk, SnapshotsOk, MalformedOk;
  }

  lemma RetiredIsQuiet<S, M>(c: Config<S, M>, s: State<S, M>, id: nat)
    requires Inv(c, s) && id in s.history.retired
    ensures id !in s.registry.active && id !in s.registry.entries && id !in s.registry.tokens
  {
    hide ControlOk, JobsOk, AllOwned, CallsOk, ClosingOk;
  }

  lemma WaiterIsOut<S, M>(c: Config<S, M>, s: State<S, M>, thread: nat)
    requires Inv(c, s) && thread in s.calls && !s.calls[thread].Removed?
    ensures s.calls[thread].reg !in s.registry.active && s.calls[thread].reg !in s.registry.entries
  {
    hide ControlOk, JobsOk, AllOwned, ClosingOk;
  }
}
