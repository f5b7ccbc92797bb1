/**
 The registry as the objects of src/runtime.rs: registrations updated in place under their own lock and
 a list of them. Each method is one lock section, or a sequence of them, of the original; its contract
 ties the objects to the registry value that the protocol steps on.
 */
module ListenerRegistry {
  import opened Wrappers
  import opened RegistryModel

  datatype StatusCode = AlreadyExists | NotFound

  class Registration {
    ghost const generation: nat
    const source: UUri
    const sink: Option<UUri>
    const listener: nat
    var active: bool
    var inFlight: nat

    constructor (ghost generation: nat, source: UUri, sink: Option<UUri>, listener: nat)
      ensures this.generation == generation && Identity() == Key(source, sink, listener)
      ensures active && inFlight == 0
    {
      this.generation := generation;
      this.source, this.sink, this.listener := source, sink, listener;
      active, inFlight := true, 0;
    }

    function Identity(): Key {
      Key(source, sink, listener)
    }

    /** `begin`: a token is handed out exactly when the registration is active. */
    method Begin() returns (granted: bool)
      modifies `inFlight
      ensures granted == active
      ensures inFlight == old(inFlight) + if granted then 1 else 0
    {
      if !active {
        return false;
      }
      inFlight := inFlight + 1;
      return true;
    }

    /** `InFlight::drop`: waiters are notified exactly when the last token is gone. */
    method DropToken() returns (notifies: bool)
      requires inFlight > 0
      modifies `inFlight
      ensures inFlight == old(inFlight) - 1
      ensures notifies <==> inFlight == 0
    {
      inFlight := inFlight - 1;
      notifies := inFlight == 0;
    }

    /** First half of `deactivate_and_wait`: the flag goes down, and the caller learns whether it has to wait. */
    method Deactivate() returns (idle: bool)
      modifies `active
      ensures !active
      ensures idle <==> inFlight == 0
    {
      active := false;
      idle := inFlight == 0;
    }
  }

  class Registry {
    var entries: seq<Registration>
    /** Every registration ever created, by generation. */
    ghost var created: seq<Registration>
    ghost var model: RegistryModel.Registry

    /** The objects hold what the value says. */
    ghost predicate Holds(reg: Registration, id: nat)
      requires id < |model.keys|
      reads this, reg
    {
      && reg.generation == id
      && reg.Identity() == model.keys[id]
      && (reg.active <==> id in model.active)
      && reg.inFlight == model.tokens[id]
    }

    ghost predicate Valid()
      reads this, created
    {
      && model.Valid()
      && |created| == |model.keys|
      && (forall i :: 0 <= i < |created| ==> Holds(created[i], i))
      && |entries| == |model.entries|
      && (forall i :: 0 <= i < |entries| ==> entries[i] == created[model.entries[i]])
    }

    constructor ()
      ensures Valid() && model == RegistryModel.Registry([], {}, multiset{}, []) && created == []
    {
      entries, created := [], [];
      model := RegistryModel.Registry([], {}, multiset{}, []);
    }

    /** The position of the entry with this key, as both `register` and `unregister` search for it. */
    method Position(key: Key) returns (position: Option<nat>)
      requires Valid()
      ensures position == model.Find(key)
      ensures position.Some? ==> position.value < |entries| && model.keys[model.entries[position.value]] == key
      ensures position.Some? <==> key in model.Listed()
    {
      InsertRefines(model, key);
      var i := 0;
      while i < |entries|
        invariant i <= |entries|
        invariant model.Find(key) == model.FindFrom(key, i)
      {
        var entry := entries[i];
        assert Holds(entry, model.entries[i]);
        if entry.source == key.source && entry.sink == key.sink && entry.listener == key.listener {
          return Some(i);
        }
        i := i + 1;
      }
      return None;
    }

    method Register(source: UUri, sink: Option<UUri>, listener: nat) returns (result: Result<(), StatusCode>)
      requires Valid()
      modifies this
      ensures Valid()
      ensures var key := Key(source, sink, listener);
              if key in old(model).Listed()
              then result == Err(AlreadyExists) && model == old(model) && created == old(created)
              else result == Ok(()) && model == old(model).Insert(key) && |created| == |old(created)| + 1
                   && created[..|old(created)|] == old(created) && fresh(created[|old(created)|])
    {
      var key := Key(source, sink, listener);
      var position := Position(key);
      if position.Some? {
        return Err(AlreadyExists);
      }
      var registration := new Registration(|created|, source, sink, listener);
      InsertRefines(model, key);
      model := model.Insert(key);
      entries := entries + [registration];
      created := created + [registration];
      return Ok(());
    }

    /** The write-lock section of `unregister`: the entry with this key leaves the list, still active. */
    method Unlist(source: UUri, sink: Option<UUri>, listener: nat) returns (result: Result<Registration, StatusCode>)
      requires Valid()
      modifies this`model, this`entries
      ensures Valid()
      ensures match old(model).Find(Key(source, sink, listener))
              case None => result == Err(NotFound) && model == old(model)
              case Some(index) =>
                && model == old(model).RemoveAt(index)
                && old(model).entries[index] < |created| && result == Ok(created[old(model).entries[index]])
    {
      var position := Position(Key(source, sink, listener));
      if position.None? {
        return Err(NotFound);
      }
      var registration := TakeOut(position.value);
      return Ok(registration);
    }

    /** `entries.remove(index)`. */
    method TakeOut(index: nat) returns (registration: Registration)
      requires Valid() && index < |entries|
      modifies this`model, this`entries
      ensures Valid() && model == old(model).RemoveAt(index)
      ensures old(model).entries[index] < |created| && registration == created[old(model).entries[index]]
      ensures old(model).entries[index] !in model.entries
    {
      registration := entries[index];
      RemoveRefines(model, index);
      RemoveKeeps(model.entries, index);
      hide RegistryModel.Registry.Valid;
      assert forall i :: 0 <= i < |created| ==> Holds(created[i], i);
      model := model.RemoveAt(index);
      entries := entries[..index] + entries[index + 1..];
    }

    /** The registration is one of this registry's. */
    ghost predicate Owns(registration: Registration)
      reads this, registration
    {
      registration.generation < |created| && created[registration.generation] == registration
    }

    /** `begin`, as the registry value sees it. */
    method Begin(registration: Registration) returns (granted: bool)
      requires Valid() && Owns(registration)
      modifies this`model, registration`inFlight
      ensures Valid()
      ensures var id := registration.generation;
              && granted == (id in old(model).active)
              && model == if granted then old(model).Acquire(id) else old(model)
    {
      assert Holds(registration, registration.generation);
      granted := registration.Begin();
      if granted {
        model := model.Acquire(registration.generation);
      }
    }

    /** The drop of a token. */
    method DropToken(registration: Registration) returns (notifies: bool)
      requires Valid() && Owns(registration) && registration.inFlight > 0
      modifies this`model, registration`inFlight
      ensures Valid() && model == old(model).Release(registration.generation)
      ensures notifies <==> registration.generation !in model.tokens
    {
      assert Holds(registration, registration.generation);
      notifies := registration.DropToken();
      model := model.Release(registration.generation);
    }

    /** The deactivation of an entry that has been taken out. */
    method Deactivate(registration: Registration) returns (idle: bool)
      requires Valid() && Owns(registration) && registration.generation !in model.entries
      modifies this`model, registration`active
      ensures Valid() && model == old(model).Deactivate(registration.generation)
      ensures idle <==> registration.generation !in model.tokens
    {
      assert Holds(registration, registration.generation);
      idle := registration.Deactivate();
      model := model.Deactivate(registration.generation);
    }

    /** The filters of the registration accept a message with these addresses. */
    static ghost predicate Takes(registration: Registration, matches: Matcher, source: UUri, sink: Option<UUri>) {
      && matches(registration.source, source)
      && (registration.sink.None? <==> sink.None?)
      && (registration.sink.Some? ==> matches(registration.sink.value, sink.value))
    }

    /** `matching`: clones of the accepted entries, in registration order. */
    method Matching(matches: Matcher, source: UUri, sink: Option<UUri>) returns (found: seq<Registration>)
      requires Valid()
      ensures var ids := Select(matches, model.keys, model.entries, source, sink);
              && |found| == |ids|
              && forall i :: 0 <= i < |ids| ==>
                  ids[i] < |created| && found[i] == created[ids[i]] && found[i].generation == ids[i]
      ensures forall entry :: entry in found <==> entry in entries && Takes(entry, matches, source, sink)
    {
      found := [];
      ghost var ids: seq<nat> := [];
      var i := 0;
      hide Select, Accepts, Takes, RegistryModel.Registry.Valid;
      assert model.entries[0..] == model.entries;
      assert ids + Select(matches, model.keys, model.entries, source, sink)
             == Select(matches, model.keys, model.entries, source, sink);
      while i < |entries|
        invariant i <= |entries|
        invariant ids + Select(matches, model.keys, model.entries[i..], source, sink)
                  == Select(matches, model.keys, model.entries, source, sink)
        invariant |found| == |ids|
        invariant forall entry :: entry in found <==> entry in entries[..i] && Takes(entry, matches, source, sink)
        invariant forall k :: 0 <= k < |ids| ==>
                  ids[k] < |created| && found[k] == created[ids[k]] && found[k].generation == ids[k]
      {
        var entry := entries[i];
        EntryHolds(i);
        AcceptsTakes(entry, matches, source, sink);
        assert entries[..i + 1] == entries[..i] + [entry];
        SelectStep(matches, model.keys, model.entries, i, source, sink, ids);
        if Accepts(matches, entry.Identity(), source, sink) {
          found := found + [entry];
          ids := ids + [model.entries[i]];
        }
        i := i + 1;
      }
      NothingLeft(matches, source, sink, ids);
      assert entries[..i] == entries;
    }

    static lemma AcceptsTakes(registration: Registration, matches: Matcher, source: UUri, sink: Option<UUri>)
      ensures Accepts(matches, registration.Identity(), source, sink) <==> Takes(registration, matches, source, sink)
    {
    }

    lemma EntryHolds(i: nat)
      requires Valid() && i < |entries|
      ensures model.entries[i] < |model.keys| && entries[i] == created[model.entries[i]]
      ensures entries[i].Identity() == model.keys[model.entries[i]] && entries[i].generation == model.entries[i]
    {
      assert Holds(created[model.entries[i]], model.entries[i]);
    }

    lemma NothingLeft(matches: Matcher, source: UUri, sink: Option<UUri>, ids: seq<nat>)
      ensures ids + Select(matches, model.keys, model.entries[|model.entries|..], source, sink) == ids
    {
    }

    /** The write-lock section of `deactivate_all`: the whole list is taken. */
    method TakeAll() returns (taken: seq<Registration>)
      requires Valid()
      modifies this`model, this`entries
      ensures Valid() && model == old(model).Clear()
      ensures |taken| == |old(model).entries|
      ensures forall i :: 0 <= i < |taken| ==> Owns(taken[i]) && taken[i].generation == old(model).entries[i]
    {
      assert forall i :: 0 <= i < |created| ==> Holds(created[i], i);
      taken := entries;
      entries := [];
      model := model.Clear();
    }
  }
}
