/**
 What the surroundings may do at every moment, exactly: callers, reader, foreign code, task, condition variables.
 The guarantees hold for all of it, so none of it may be missing.
 */
module Surroundings {
  import opened Wrappers
  import opened RegistryModel
  import opened Protocol

  /** While the transport is open anybody may call, one call at a time, the callback only while it runs. */
  lemma CallsMayCome<S, M>(c: Config<S, M>, s: State<S, M>, thread: nat, key: Key)
    ensures Next(c, s, Api(Register(key))).Some? <==> s.closing == Open
    ensures Next(c, s, Api(Unregister(thread, key))).Some?
            <==> && s.closing == Open && thread !in s.calls
                 && (thread == CALLBACK ==> s.dispatcher.InCallback? && s.dispatcher.task.Running?)
  {
    hide Registry.Find, Registry.Insert;
  }

  /** The transport may be dropped when no call is pending, on a thread of its own or by the running callback. */
  lemma DropMayCome<S, M>(c: Config<S, M>, s: State<S, M>, inside: bool)
    ensures Next(c, s, Close(Stop(inside))).Some?
            <==> && s.closing == Open && s.calls == map[]
                 && (inside ==> s.dispatcher.InCallback? && s.dispatcher.task.Running?)
    ensures var t := Next(c, s, Close(Stop(inside)));
            t.Some? ==> t.value.stopped && t.value.inside == inside && t.value.closing == JoiningPoller
  {
  }

  /** The reader returns any samples up to the limit, none, or an error; it and the codecs may panic. */
  lemma ReaderMayReturn<S, M>(c: Config<S, M>, s: State<S, M>, result: TakeResult<S>)
    ensures Next(c, s, Poll(Take(result))).Some?
            <==> s.poller.Taking? && (result.Samples? ==> |result.samples| <= c.maxSamples)
    ensures Next(c, s, Poll(PollerPanic)).Some? <==> s.poller.Taking? || s.poller.Batch?
    ensures s.poller.Batch? ==>
              Next(c, s, Poll(PollerPanic)).value.poller == PollerExited(true, s.poller.pending)
  {
    hide DoAdvance, DoWake, DoRecordRefusal;
  }

  /** A parked thread may be woken for nothing at any moment. */
  lemma WakesMayBeSpurious<S, M>(c: Config<S, M>, s: State<S, M>, thread: nat)
    ensures Next(c, s, Api(SpuriousWake(thread))).Some? <==> thread in s.calls && s.calls[thread].Parked?
    ensures Next(c, s, Close(SpuriousNext)).Some? <==> s.closing.CloseParked?
  {
  }

  /** The stages of a task: when it may go on, and to what. */
  ghost predicate GoesTo<S, M>(c: Config<S, M>, s: State<S, M>, step: TaskStep, may: bool, to: Task) {
    var next := Next(c, s, Run(step));
    && (next.Some? <==> may)
    && (may ==> next.value.dispatcher.InCallback? && next.value.dispatcher.task == to)
  }

  /**
   A task starts unless it was aborted before; its callback completes or panics unless it is inside the transport's own
   code; an aborted one may be cancelled instead; and then, last, it gives its token back.
   */
  lemma TaskMayGoOn<S, M>(c: Config<S, M>, s: State<S, M>)
    requires s.dispatcher.InCallback?
    ensures var task, free := s.dispatcher.task, CALLBACK !in s.calls && !s.inside;
            && GoesTo(c, s, Start, task == Spawned(false), Running(false))
            && GoesTo(c, s, End(false), task.Running? && free, Dropping(Completed))
            && GoesTo(c, s, End(true), task.Running? && free, Dropping(Panicked))
            && GoesTo(c, s, Cancel, free && (task == Spawned(true) || task == Running(true)), Dropping(Cancelled))
            && (task.Dropping? ==> GoesTo(c, s, ReleaseToken, true, Finished(task.outcome)))
            && (!task.Dropping? ==> Next(c, s, Run(ReleaseToken)).None?)
  {
    hide WakeCalls, WakeClosing;
  }

  /** The last token of a registration wakes those who wait for it, and nobody else. */
  lemma WakesExactly<S, M>(c: Config<S, M>, s: State<S, M>, t: State<S, M>)
    requires Next(c, s, Run(ReleaseToken)) == Some(t) && s.dispatcher.job.reg !in t.registry.tokens
    ensures t.calls.Keys == s.calls.Keys
    ensures forall thread :: thread in s.calls ==>
              t.calls[thread] == if s.calls[thread] == Parked(s.dispatcher.job.reg)
                                 then Woken(s.dispatcher.job.reg) else s.calls[thread]
    ensures t.closing == if s.closing.CloseParked? && s.closing.rest != [] && s.closing.rest[0] == s.dispatcher.job.reg
                         then CloseWoken(s.closing.rest) else s.closing
  {
  }
}
