/**
 `register` and `unregister` are linearizable: in every run their results are those of a sequential
 ordered set of keys that executes them in the order of their write-lock sections.
 */
module Linearization {
  import opened Wrappers
  import opened RegistryModel
  import opened Protocol
  import opened Safety

  /** The sequential specification: an ordered set without the first occurrence of `key`. */
  function Without(keys: seq<Key>, key: Key): seq<Key> {
    if keys == [] then []
    else if keys[0] == key then keys[1..]
    else [keys[0]] + Without(keys[1..], key)
  }

  /** One sequential operation, or None when its result is not the one the set dictates. */
  function Apply(keys: seq<Key>, event: ApiEvent): Option<seq<Key>> {
    match event
    case RegisterEvent(key, ok) =>
      if ok == (key in keys) then None else Some(if ok then keys + [key] else keys)
    case UnregisterEvent(key, ok) =>
      if ok != (key in keys) then None else Some(if ok then Without(keys, key) else keys)
    case TakeAllEvent => Some([])
  }

  function Replay(log: seq<ApiEvent>): Option<seq<Key>> {
    if log == [] then Some([])
    else
      match Replay(log[..|log| - 1])
      case None => None
      case Some(keys) => Apply(keys, log[|log| - 1])
  }

  ghost predicate ApiOk<S, M>(s: State<S, M>) {
    s.registry.InBounds() && Replay(s.history.api) == Some(s.registry.Listed())
  }

  lemma ReplayAppend(log: seq<ApiEvent>, event: ApiEvent)
    requires Replay(log).Some?
    ensures Replay(log + [event]) == Apply(Replay(log).value, event)
  {
    assert (log + [event])[..|log|] == log;
  }

  lemma {:induction false} WithoutAt(keys: seq<Key>, index: nat)
    requires index < |keys|
    requires forall i :: 0 <= i < index ==> keys[i] != keys[index]
    ensures Without(keys, keys[index]) == keys[..index] + keys[index + 1..]
  {
    if index > 0 {
      WithoutAt(keys[1..], index - 1);
      assert keys[..index] == [keys[0]] + keys[1..][..index - 1];
    }
  }

  lemma ApiRegister<S, M>(s: State<S, M>, key: Key)
    requires s.registry.Valid() && ApiOk(s) && DoRegister(s, key).Some?
    ensures ApiOk(DoRegister(s, key).value)
  {
    InsertRefines(s.registry, key);
    ReplayAppend(s.history.api, RegisterEvent(key, s.registry.Find(key).None?));
    hide Replay;
  }

  lemma ApiUnregister<S, M>(s: State<S, M>, thread: nat, key: Key)
    requires s.registry.Valid() && ApiOk(s) && DoUnregister(s, thread, key).Some?
    ensures ApiOk(DoUnregister(s, thread, key).value)
  {
    InsertRefines(s.registry, key);
    ReplayAppend(s.history.api, UnregisterEvent(key, s.registry.Find(key).Some?));
    match s.registry.Find(key)
    case None =>
    case Some(index) =>
      RemoveRefines(s.registry, index);
      assert s.registry.Listed()[index] == key;
      WithoutAt(s.registry.Listed(), index);
      hide Replay, Without, Registry.Valid;
  }

  /** Steps that neither write `entries` nor finish an operation. */
  lemma ApiFrame<S, M>(s: State<S, M>, t: State<S, M>)
    requires ApiOk(s)
    requires t.registry.InBounds() && t.registry.keys == s.registry.keys && t.registry.entries == s.registry.entries
    requires t.history.api == s.history.api
    ensures ApiOk(t)
  {
    assert t.registry.Listed() == s.registry.Listed();
  }

  lemma ApiKept<S, M>(c: Config<S, M>, s: State<S, M>, step: Step<S>, t: State<S, M>)
    requires s.registry.Valid() && t.registry.Valid() && ApiOk(s) && Next(c, s, step) == Some(t)
    ensures ApiOk(t)
  {
    assert s.registry.InBounds() && t.registry.InBounds();
    hide Replay, Registry.Valid, Registry.InBounds, ApiOk;
    match step
    case Api(Register(key)) => ApiRegister(s, key);
    case Api(Unregister(thread, key)) => ApiUnregister(s, thread, key);
    case Api(_) => KeepsEntries(c, s, step, t); ApiFrame(s, t);
    case Close(TakeEntries) => ApiTakeEntries(s);
    case _ => KeepsEntries(c, s, step, t); ApiFrame(s, t);
  }

  lemma ApiTakeEntries<S, M>(s: State<S, M>)
    requires ApiOk(s) && DoTakeEntries(s).Some?
    ensures ApiOk(DoTakeEntries(s).value)
  {
    ReplayAppend(s.history.api, TakeAllEvent);
    assert DoTakeEntries(s).value.registry.Listed() == [];
  }

  ghost predicate SameEntries<S, M>(s: State<S, M>, t: State<S, M>) {
    t.registry.keys == s.registry.keys && t.registry.entries == s.registry.entries && t.history.api == s.history.api
  }

  /** Only `register`, `unregister` and the dropping thread write `entries`. */
  lemma KeepsEntries<S, M>(c: Config<S, M>, s: State<S, M>, step: Step<S>, t: State<S, M>)
    requires Next(c, s, step) == Some(t)
    requires !step.Api? || !(step.api.Register? || step.api.Unregister?)
    requires step != Close(TakeEntries)
    ensures SameEntries(s, t)
  {
    hide ApiNext, PollerNext, DispatcherNext, TaskNext, CloseNext;
    match step
    case Api(a) => var u := ApiWrites(s, a);
    case Poll(p) => var u := PollerWrites(c, s, p);
    case Dispatch(d) => var u := DispatcherWrites(s, d);
    case Run(k) => var u := TaskWrites(s, k);
    case Close(k) => var u := CloseWrites(s, k);
  }
}
