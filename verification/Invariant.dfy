/**
 The invariant of the protocol and its proof over every run.
 */
module Invariant {
  import opened Wrappers
  import opened RegistryModel
  import opened Protocol
  import opened Safety
  import opened Delivery
  import opened Linearization

  ghost predicate Inv<S, M>(c: Config<S, M>, s: State<S, M>) {
    && ControlOk(s)
    && RegsOk(s)
    && JobsOk(c, s)
    && ApiOk(s)
  }

  lemma InitJobs<S, M>(c: Config<S, M>)
    ensures JobsOk(c, Init())
  {
    hide Safety.ControlOk, Safety.RegsOk;
  }

  lemma InitRegs<S, M>()
    ensures ControlOk(Init<S, M>()) && RegsOk(Init<S, M>()) && ApiOk(Init<S, M>())
  {
  }

  lemma InvInit<S, M>(c: Config<S, M>)
    ensures Inv(c, Init())
  {
    InitJobs(c);
    InitRegs<S, M>();
    hide ControlOk, RegsOk, JobsOk, ApiOk, Init;
  }

  lemma InvNext<S, M>(c: Config<S, M>, s: State<S, M>, step: Step<S>, t: State<S, M>)
    requires Inv(c, s) && Next(c, s, step) == Some(t)
    ensures Inv(c, t)
  {
    hide ControlOk, RegsOk, JobsOk, ApiOk, Registry.Valid;
    RegistryValid(s);
    match step {
      case Api(a) => ControlApi(s, a); RegsApi(s, a); JobsApi(c, s, a);
      case Poll(p) => ControlPoller(c, s, p); RegsPoller(c, s, p); JobsPoller(c, s, p);
      case Dispatch(d) => ControlDispatcher(s, d); RegsDispatcher(s, d); JobsDispatcher(c, s, d);
      case Run(k) => ControlTask(s, k); RegsTask(s, k); JobsTask(c, s, k);
      case Close(k) => ControlClose(s, k); RegsClose(s, k); JobsClose(c, s, k);
    }
    RegistryValid(t);
    ApiKept(c, s, step, t);
  }

  lemma RegistryValid<S, M>(s: State<S, M>)
    requires RegsOk(s)
    ensures s.registry.Valid()
  {
  }

  /** The invariant holds along every schedule. */
  lemma {:induction false} InvAfter<S, M>(c: Config<S, M>, s: State<S, M>, steps: seq<Step<S>>, t: State<S, M>)
    requires Inv(c, s) && After(c, s, steps) == Some(t)
    ensures Inv(c, t)
    decreases steps
  {
    hide Inv, Next;
    if steps != [] {
      var mid := Next(c, s, steps[0]).value;
      InvNext(c, s, steps[0], mid);
      InvAfter(c, mid, steps[1..], t);
    }
  }

  lemma InvReachable<S(!new), M>(c: Config<S, M>, s: State<S, M>)
    requires Reachable(c, s)
    ensures Inv(c, s)
  {
    var steps: seq<Step<S>> :| After(c, Init(), steps) == Some(s);
    InvInit(c);
    InvAfter(c, Init(), steps, s);
  }

  lemma ControlReachable<S(!new), M>(c: Config<S, M>, s: State<S, M>)
    requires Reachable(c, s)
    ensures ControlOk(s)
  {
    InvReachable(c, s);
    hide Reachable, ControlOk, RegsOk, JobsOk, ApiOk;
  }

  lemma {:induction false} AfterConcat<S, M>(c: Config<S, M>, s: State<S, M>, first: seq<Step<S>>, t: State<S, M>,
                                             second: seq<Step<S>>)
    requires After(c, s, first) == Some(t)
    ensures After(c, s, first + second) == After(c, t, second)
    decreases first
  {
    hide Next;
    if first == [] {
      assert first + second == second;
    } else {
      AfterConcat(c, Next(c, s, first[0]).value, first[1..], t, second);
      assert (first + second)[1..] == first[1..] + second;
    }
  }

  lemma AfterCons<S, M>(c: Config<S, M>, s: State<S, M>, step: Step<S>, u: State<S, M>, rest: seq<Step<S>>)
    requires Next(c, s, step) == Some(u)
    ensures After(c, s, [step] + rest) == After(c, u, rest)
  {
    hide Next;
    assert ([step] + rest)[1..] == rest;
  }

  lemma AfterOne<S, M>(c: Config<S, M>, s: State<S, M>, step: Step<S>, t: State<S, M>)
    requires Next(c, s, step) == Some(t)
    ensures After(c, s, [step]) == Some(t)
  {
    AfterCons(c, s, step, t, []);
    assert [step] + [] == [step];
    hide Next;
  }

  lemma {:induction false} AfterSnoc<S, M>(c: Config<S, M>, s: State<S, M>, steps: seq<Step<S>>, t: State<S, M>,
                                           step: Step<S>)
    requires After(c, s, steps) == Some(t)
    ensures After(c, s, steps + [step]) == Next(c, t, step)
    decreases steps
  {
    hide Next;
    if steps == [] {
      assert (steps + [step])[1..] == [];
    } else {
      AfterSnoc(c, Next(c, s, steps[0]).value, steps[1..], t, step);
      assert (steps + [step])[1..] == steps[1..] + [step];
    }
  }

  /** One more step at the end of a schedule. */
  lemma Extend<S, M>(c: Config<S, M>, s: State<S, M>, steps: seq<Step<S>>, t: State<S, M>, step: Step<S>)
    returns (more: seq<Step<S>>, u: State<S, M>)
    requires After(c, s, steps) == Some(t) && Next(c, t, step).Some?
    ensures After(c, s, more) == Some(u) && Next(c, t, step) == Some(u) && more == steps + [step]
  {
    hide After, Next;
    AfterSnoc(c, s, steps, t, step);
    more, u := steps + [step], Next(c, t, step).value;
  }

  lemma ReachableAfter<S(!new), M>(c: Config<S, M>, s: State<S, M>, steps: seq<Step<S>>, t: State<S, M>)
    requires Reachable(c, s) && After(c, s, steps) == Some(t)
    ensures Reachable(c, t)
  {
    var first: seq<Step<S>> :| After(c, Init(), first) == Some(s);
    AfterConcat(c, Init(), first, s, steps);
    hide After;
  }

  lemma ReachableNext<S(!new), M>(c: Config<S, M>, s: State<S, M>, step: Step<S>, t: State<S, M>)
    requires Reachable(c, s) && Next(c, s, step) == Some(t)
    ensures Reachable(c, t)
  {
    AfterOne(c, s, step, t);
    hide Next, Reachable;
    ReachableAfter(c, s, [step], t);
  }

  /**
   In every run, replaying the recorded results on a sequential ordered set of keys succeeds and ends in the
   keys listed; these differ pairwise, and every one of them belongs to an active registration.
   */
  lemma RegistryLinearizable<S, M>(c: Config<S, M>, steps: seq<Step<S>>, s: State<S, M>)
    requires After(c, Init(), steps) == Some(s)
    ensures s.registry.InBounds() && Replay(s.history.api) == Some(s.registry.Listed())
    ensures forall i, j :: 0 <= i < j < |s.registry.entries| ==> s.registry.Listed()[i] != s.registry.Listed()[j]
    ensures forall i :: 0 <= i < |s.registry.entries| ==> s.registry.entries[i] in s.registry.active
  {
    InvInit(c);
    InvAfter(c, Init(), steps, s);
    hide ControlOk, JobsOk, After, Replay;
  }
}
