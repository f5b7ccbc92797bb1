/**
 The listener registry as a value: what `Registry` and `RegistrationState` of src/runtime.rs hold.
 A registration is named by its generation, its position in the order of creation. `keys` never
 forgets a generation; `entries` lists the generations that are registered now; `active` holds those
 whose `active` flag is up; `tokens[id]` is the `in_flight` count of generation `id`.
 */
module RegistryModel {
  import opened Wrappers

  /** A uProtocol address. Only its identity matters here; `matches` is a parameter of the model. */
  datatype UUri = UUri(authority: string, ueId: nat, version: nat, resource: nat)

  /** `filter.matches(address)` of up-rust. */
  type Matcher = (UUri, UUri) -> bool

  /** What a registration is looked up by; `listener` is the identity of the shared pointer. */
  datatype Key = Key(source: UUri, sink: Option<UUri>, listener: nat)

  /** Source filter matches, and a sink filter is present exactly when the message has a sink. */
  predicate Accepts(matches: Matcher, key: Key, source: UUri, sink: Option<UUri>) {
    && matches(key.source, source)
    && match (key.sink, sink)
       case (None, None) => true
       case (Some(filter), Some(value)) => matches(filter, value)
       case _ => false
  }

  ghost predicate Increasing(ids: seq<nat>) {
    forall i, j :: 0 <= i < j < |ids| ==> ids[i] < ids[j]
  }

  datatype Registry = Registry(keys: seq<Key>, active: set<nat>, tokens: multiset<nat>, entries: seq<nat>) {

    ghost predicate InBounds() {
      && (forall id :: id in active ==> id < |keys|)
      && (forall id :: id in tokens ==> id < |keys|)
      && (forall i :: 0 <= i < |entries| ==> entries[i] < |keys|)
    }

    /** Entries are in registration order, their keys differ pairwise, and each one is active. */
    ghost predicate Valid() {
      && InBounds()
      && Increasing(entries)
      && (forall i, j :: 0 <= i < j < |entries| ==> keys[entries[i]] != keys[entries[j]])
      && (forall i :: 0 <= i < |entries| ==> entries[i] in active)
    }

    /** The registry as callers see it: the registered keys in order. */
    ghost function Listed(): (listed: seq<Key>)
      requires InBounds()
      ensures |listed| == |entries|
      ensures forall i :: 0 <= i < |entries| ==> listed[i] == keys[entries[i]]
    {
      seq(|entries|, i requires 0 <= i < |entries| => keys[entries[i]])
    }

    /** Position of the first listed entry with this key, searching from `from`. */
    function FindFrom(key: Key, from: nat): (found: Option<nat>)
      requires from <= |entries|
      ensures found.Some? ==>
              from <= found.value < |entries| && entries[found.value] < |keys| && keys[entries[found.value]] == key
      ensures found.None? ==> forall i :: from <= i < |entries| && entries[i] < |keys| ==> keys[entries[i]] != key
      decreases |entries| - from
    {
      if from == |entries| then None
      else if entries[from] < |keys| && keys[entries[from]] == key then Some(from)
      else FindFrom(key, from + 1)
    }

    function Find(key: Key): Option<nat> {
      FindFrom(key, 0)
    }

    function Insert(key: Key): Registry {
      Registry(keys + [key], active + {|keys|}, tokens, entries + [|keys|])
    }

    function RemoveAt(index: nat): Registry
      requires index < |entries|
    {
      this.(entries := entries[..index] + entries[index + 1..])
    }

    function Clear(): Registry {
      this.(entries := [])
    }

    function Deactivate(id: nat): Registry {
      this.(active := active - {id})
    }

    /** `begin` on an active registration: one more token. */
    function Acquire(id: nat): Registry {
      this.(tokens := tokens + multiset{id})
    }

    /** Dropping a token. */
    function Release(id: nat): Registry {
      this.(tokens := tokens - multiset{id})
    }
  }

  /** The generations among `ids` whose filters accept the message, in the order of `ids`. */
  function Select(matches: Matcher, keys: seq<Key>, ids: seq<nat>, source: UUri, sink: Option<UUri>): seq<nat> {
    if ids == [] then []
    else
      (if ids[0] < |keys| && Accepts(matches, keys[ids[0]], source, sink) then [ids[0]] else [])
      + Select(matches, keys, ids[1..], source, sink)
  }

  // ---------- Registering and unregistering act as insertion and deletion on an ordered set of keys ----------

  /** `register` refuses a key exactly when it is listed, and otherwise appends it. */
  lemma InsertRefines(r: Registry, key: Key)
    requires r.Valid()
    ensures r.Find(key).Some? <==> key in r.Listed()
    ensures key !in r.Listed() ==>
              && r.Insert(key).Valid()
              && r.Insert(key).Listed() == r.Listed() + [key]
  {
    if r.Find(key).Some? {
      assert r.Listed()[r.Find(key).value] == key;
    }
    if key !in r.Listed() {
      var n := r.Insert(key);
      forall i | 0 <= i < |r.entries|
        ensures n.keys[n.entries[i]] == r.Listed()[i]
      {
      }
      assert n.Listed() == r.Listed() + [key];
    }
  }

  /** The generations left after a removal, by position. */
  lemma RemoveKeeps(ids: seq<nat>, index: nat)
    requires index < |ids| && Increasing(ids)
    ensures var rest := ids[..index] + ids[index + 1..];
            && Increasing(rest)
            && forall id :: id in rest <==> id in ids && id != ids[index]
  {
    var rest := ids[..index] + ids[index + 1..];
    assert forall i :: 0 <= i < |rest| ==> rest[i] == ids[if i < index then i else i + 1];
    forall id | id in ids && id != ids[index]
      ensures id in rest
    {
      var i :| 0 <= i < |ids| && ids[i] == id;
      assert rest[if i < index then i else i - 1] == id;
    }
  }

  /** `unregister` takes out the one entry with the key and leaves the others in order. */
  lemma RemoveRefines(r: Registry, index: nat)
    requires r.Valid() && index < |r.entries|
    ensures r.RemoveAt(index).Valid()
    ensures r.RemoveAt(index).Listed() == r.Listed()[..index] + r.Listed()[index + 1..]
    ensures r.Listed()[index] !in r.RemoveAt(index).Listed()
  {
    var n := r.RemoveAt(index);
    RemoveKeeps(r.entries, index);
    assert forall i :: 0 <= i < |n.entries| ==> n.entries[i] == r.entries[if i < index then i else i + 1];
    assert n.Valid();
    var listed := r.Listed();
    assert n.Listed() == listed[..index] + listed[index + 1..];
    assert forall i :: 0 <= i < |listed| && i != index ==> listed[i] != listed[index];
  }

  /**
   `matching` returns exactly the entries whose source filter matches and whose sink filter, present exactly when
   the message has a sink, matches that.
   */
  lemma {:induction false} SelectExact(matches: Matcher, keys: seq<Key>, ids: seq<nat>, source: UUri,
                                       sink: Option<UUri>)
    ensures forall id :: id in Select(matches, keys, ids, source, sink)
                         <==> && id in ids && id < |keys| && matches(keys[id].source, source)
                              && (keys[id].sink.None? <==> sink.None?)
                              && (keys[id].sink.Some? ==> matches(keys[id].sink.value, sink.value))
  {
    if ids != [] {
      SelectExact(matches, keys, ids[1..], source, sink);
      assert ids == [ids[0]] + ids[1..];
    }
  }

  /** It returns each of them once, in registration order. */
  lemma {:induction false} SelectIncreasing(matches: Matcher, keys: seq<Key>, ids: seq<nat>, source: UUri,
                                            sink: Option<UUri>)
    requires Increasing(ids)
    ensures Increasing(Select(matches, keys, ids, source, sink))
  {
    if ids != [] {
      SelectIncreasing(matches, keys, ids[1..], source, sink);
      SelectExact(matches, keys, ids[1..], source, sink);
      var rest := Select(matches, keys, ids[1..], source, sink);
      forall j | 0 <= j < |rest|
        ensures ids[0] < rest[j]
      {
        assert rest[j] in rest;
      }
    }
  }

  /** Selecting one entry at a time. */
  lemma SelectStep(matches: Matcher, keys: seq<Key>, ids: seq<nat>, i: nat, source: UUri, sink: Option<UUri>,
                   done: seq<nat>)
    requires i < |ids| && ids[i] < |keys|
    ensures done + Select(matches, keys, ids[i..], source, sink)
            == (if Accepts(matches, keys[ids[i]], source, sink) then done + [ids[i]] else done)
               + Select(matches, keys, ids[i + 1..], source, sink)
  {
    hide Accepts;
    assert ids[i..][1..] == ids[i + 1..];
    var rest := Select(matches, keys, ids[i + 1..], source, sink);
    assert done + ([ids[i]] + rest) == done + [ids[i]] + rest;
    assert done + ([] + rest) == done + rest;
  }

  /** Registrations created later do not change what an old snapshot selected. */
  lemma {:induction false} SelectStable(matches: Matcher, keys: seq<Key>, more: seq<Key>, ids: seq<nat>, source: UUri,
                                        sink: Option<UUri>)
    requires forall i :: 0 <= i < |ids| ==> ids[i] < |keys|
    ensures Select(matches, keys + more, ids, source, sink) == Select(matches, keys, ids, source, sink)
  {
    if ids != [] {
      SelectStable(matches, keys, more, ids[1..], source, sink);
    }
  }
}
