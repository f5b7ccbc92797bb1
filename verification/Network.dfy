/**
 Several transports of one family on one topic. DDS is only a place samples are written to and taken
 from: a reader may get any written sample, any number of times, in any order, or an empty one.
 */
module Network {
  import opened Wrappers
  import opened RegistryModel
  import opened Health
  import opened Protocol
  import opened Safety
  import opened Delivery
  import opened Invariant
  import opened Ordering
  import opened Witnesses

  /** The send side of a family: what is sent, what sample it becomes, and what a receiver should get. */
  datatype Link<!B, !S, !M> = Link(
    family: Family<S, M>,
    sendable: B -> bool,
    encode: (string, B) -> Result<S, string>,
    meaning: B -> M,
    from: B -> UUri,
    to: B -> Option<UUri>)

  /** The sample carries the sender's origin, decodes to what was meant, and that has the addresses it was sent with. */
  ghost predicate Restores<B, S, M>(link: Link<B, S, M>, origin: string, b: B) {
    link.sendable(b) && link.encode(origin, b).Ok? ==>
      && link.family.origin(link.encode(origin, b).value) == origin
      && link.family.decode(link.encode(origin, b).value) == Ok(link.meaning(b))
      && link.family.source(link.meaning(b)) == link.from(b)
      && link.family.sink(link.meaning(b)) == link.to(b)
  }

  ghost predicate RoundTrips<B(!new), S, M>(link: Link<B, S, M>) {
    forall origin: string, b: B :: Restores(link, origin, b)
  }

  datatype Node<!S, !M> = Node(config: Config<S, M>, state: State<S, M>)

  datatype Written<B, S> = Written(sender: nat, content: B, sample: S)

  datatype World<B, !S, !M> = World(nodes: map<nat, Node<S, M>>, topic: seq<Written<B, S>>)

  datatype WorldStep<B, S> = Send(node: nat, content: B) | Local(node: nat, step: Step<S>)

  ghost predicate OnTopic<B, S>(topic: seq<Written<B, S>>, sample: S) {
    exists k :: 0 <= k < |topic| && topic[k].sample == sample
  }

  /** Only a take brings samples into a transport, and it takes what is on the topic. */
  ghost predicate TakesFrom<B, S>(topic: seq<Written<B, S>>, step: Step<S>) {
    step.Poll? && step.poll.Take? && step.poll.result.Samples? ==>
      forall i :: 0 <= i < |step.poll.result.samples| && step.poll.result.samples[i].Some? ==>
        OnTopic(topic, step.poll.result.samples[i].value)
  }

  ghost function WorldNext<B, S, M>(link: Link<B, S, M>, w: World<B, S, M>,
                                    step: WorldStep<B, S>): Option<World<B, S, M>>
  {
    if step.node !in w.nodes then None
    else
      var node := w.nodes[step.node];
      match step
      case Send(n, content) =>
        if node.state.closing != Open || !link.sendable(content) then None
        else
          (match link.encode(node.config.originId, content)
           case Err(_) => Some(w)
           case Ok(sample) => Some(w.(topic := w.topic + [Written(n, content, sample)])))
      case Local(n, local) =>
        if !TakesFrom(w.topic, local) then None
        else
          (match Next(node.config, node.state, local)
           case None => None
           case Some(state) => Some(w.(nodes := w.nodes[n := Node(node.config, state)])))
  }

  ghost function WorldAfter<B, S, M>(link: Link<B, S, M>, w: World<B, S, M>,
                                     steps: seq<WorldStep<B, S>>): Option<World<B, S, M>>
    decreases steps
  {
    if steps == [] then Some(w)
    else
      match WorldNext(link, w, steps[0])
      case None => None
      case Some(v) => WorldAfter(link, v, steps[1..])
  }

  /** Transports just created on an empty topic. */
  ghost predicate Fresh<B, S, M>(link: Link<B, S, M>, w: World<B, S, M>) {
    && w.topic == []
    && forall n :: n in w.nodes ==> w.nodes[n].config.family == link.family && w.nodes[n].state == Init()
  }

  // ---------- The invariant ----------

  ghost predicate WrittenOk<B, S, M>(link: Link<B, S, M>, nodes: map<nat, Node<S, M>>, sent: Written<B, S>) {
    && sent.sender in nodes && link.sendable(sent.content)
    && link.encode(nodes[sent.sender].config.originId, sent.content) == Ok(sent.sample)
  }

  ghost predicate TopicOk<B, S, M>(link: Link<B, S, M>, w: World<B, S, M>) {
    forall k :: 0 <= k < |w.topic| ==> WrittenOk(link, w.nodes, w.topic[k])
  }

  ghost predicate TakenOk<B, S>(topic: seq<Written<B, S>>, taken: seq<Option<S>>) {
    forall i :: 0 <= i < |taken| && taken[i].Some? ==> OnTopic(topic, taken[i].value)
  }

  ghost predicate NodeOk<B, S(!new), M>(link: Link<B, S, M>, topic: seq<Written<B, S>>, node: Node<S, M>) {
    && node.config.family == link.family
    && Reachable(node.config, node.state)
    && TakenOk(topic, node.state.history.taken)
  }

  ghost predicate WorldOk<B, S(!new), M>(link: Link<B, S, M>, w: World<B, S, M>) {
    && TopicOk(link, w)
    && forall n :: n in w.nodes ==> NodeOk(link, w.topic, w.nodes[n])
  }

  lemma TakenByPoller<S, M>(c: Config<S, M>, s: State<S, M>, step: PollerStep<S>)
    requires PollerNext(c, s, step).Some?
    ensures PollerNext(c, s, step).value.history.taken
            == if step.Take? && step.result.Samples? then s.history.taken + step.result.samples else s.history.taken
  {
    hide Chosen, JobsFor, Accepted, Malformed;
  }

  lemma TakenNext<S, M>(c: Config<S, M>, s: State<S, M>, step: Step<S>, t: State<S, M>)
    requires Next(c, s, step) == Some(t)
    ensures t.history.taken == s.history.taken
            || (step.Poll? && step.poll.Take? && step.poll.result.Samples?
                && t.history.taken == s.history.taken + step.poll.result.samples)
  {
    hide ApiNext, PollerNext, DispatcherNext, TaskNext, CloseNext;
    match step
    case Api(a) => var u := ApiWrites(s, a);
    case Poll(p) => TakenByPoller(c, s, p);
    case Dispatch(d) => var u := DispatcherWrites(s, d);
    case Run(k) => var u := TaskWrites(s, k);
    case Close(k) => var u := CloseWrites(s, k);
  }

  lemma NodeNext<B, S(!new), M>(link: Link<B, S, M>, topic: seq<Written<B, S>>, node: Node<S, M>, step: Step<S>,
                                t: State<S, M>)
    requires NodeOk(link, topic, node) && TakesFrom(topic, step) && Next(node.config, node.state, step) == Some(t)
    ensures NodeOk(link, topic, Node(node.config, t))
  {
    hide Reachable, Next, OnTopic;
    ReachableNext(node.config, node.state, step, t);
    TakenNext(node.config, node.state, step, t);
  }

  lemma TopicGrows<B, S(!new), M>(link: Link<B, S, M>, topic: seq<Written<B, S>>, sent: Written<B, S>, node: Node<S, M>)
    requires NodeOk(link, topic, node)
    ensures NodeOk(link, topic + [sent], node)
  {
    hide Reachable;
    forall i | 0 <= i < |node.state.history.taken| && node.state.history.taken[i].Some?
      ensures OnTopic(topic + [sent], node.state.history.taken[i].value)
    {
      var k :| 0 <= k < |topic| && topic[k].sample == node.state.history.taken[i].value;
      assert (topic + [sent])[k].sample == node.state.history.taken[i].value;
    }
  }

  lemma WorldOkNext<B, S(!new), M>(link: Link<B, S, M>, w: World<B, S, M>, step: WorldStep<B, S>, v: World<B, S, M>)
    requires WorldOk(link, w) && WorldNext(link, w, step) == Some(v)
    ensures WorldOk(link, v)
  {
    hide NodeOk, Next, TakesFrom;
    match step
    case Send(n, content) =>
      if v != w {
        var sent := v.topic[|w.topic|];
        forall m | m in w.nodes
          ensures NodeOk(link, v.topic, v.nodes[m])
        {
          TopicGrows(link, w.topic, sent, w.nodes[m]);
        }
      }
    case Local(n, local) => NodeNext(link, w.topic, w.nodes[n], local, v.nodes[n].state);
  }

  lemma {:induction false} WorldOkAfter<B, S(!new), M>(link: Link<B, S, M>, w: World<B, S, M>,
                                                       steps: seq<WorldStep<B, S>>, v: World<B, S, M>)
    requires WorldOk(link, w) && WorldAfter(link, w, steps) == Some(v)
    ensures WorldOk(link, v)
    decreases steps
  {
    hide WorldOk, WorldNext;
    if steps != [] {
      var mid := WorldNext(link, w, steps[0]).value;
      WorldOkNext(link, w, steps[0], mid);
      WorldOkAfter(link, mid, steps[1..], v);
    }
  }

  lemma FreshOk<B, S(!new), M>(link: Link<B, S, M>, w: World<B, S, M>)
    requires Fresh(link, w)
    ensures WorldOk(link, w)
  {
    forall n | n in w.nodes
      ensures NodeOk(link, w.topic, w.nodes[n])
    {
      assert After(w.nodes[n].config, Init(), []) == Some(w.nodes[n].state);
    }
  }

  // ---------- Provenance ----------

  /** `job` at node `n` delivers what some transport of another origin sent, to a filter that accepts it. */
  ghost predicate DeliversSent<B, S, M>(link: Link<B, S, M>, w: World<B, S, M>, n: nat, job: Job<M>,
                                        sent: Written<B, S>)
    requires n in w.nodes
  {
    var node := w.nodes[n];
    && sent in w.topic && sent.sender in w.nodes
    && w.nodes[sent.sender].config.originId != node.config.originId
    && job.message == link.meaning(sent.content)
    && job.reg < |node.state.registry.keys|
    && var key, sink := node.state.registry.keys[job.reg], link.to(sent.content);
       && node.config.matches(key.source, link.from(sent.content))
       && (key.sink.None? <==> sink.None?)
       && (key.sink.Some? ==> node.config.matches(key.sink.value, sink.value))
  }

  /** In every run of transports with a faithful carriage, callbacks deliver exactly what others sent. */
  lemma Provenance<B(!new), S(!new), M>(link: Link<B, S, M>, w: World<B, S, M>, steps: seq<WorldStep<B, S>>,
                                        v: World<B, S, M>, n: nat, job: Job<M>)
    returns (sent: Written<B, S>)
    requires RoundTrips(link) && Fresh(link, w) && WorldAfter(link, w, steps) == Some(v)
    requires n in v.nodes && job in v.nodes[n].state.history.started
    ensures DeliversSent(link, v, n, job, sent)
  {
    hide Reachable, WorldAfter;
    FreshOk(link, w);
    WorldOkAfter(link, w, steps, v);
    var node := v.nodes[n];
    StartedRightful(node.config, node.state, job);
    var sample := node.state.history.taken[job.sample].value;
    assert OnTopic(v.topic, sample);
    var k :| 0 <= k < |v.topic| && v.topic[k].sample == sample;
    sent := v.topic[k];
    assert WrittenOk(link, v.nodes, sent);
    assert Restores(link, v.nodes[sent.sender].config.originId, sent.content);
  }

  lemma {:induction false} NoneMalformed<S, M>(c: Config<S, M>, taken: seq<Option<S>>, n: nat)
    requires n <= |taken| && forall i :: 0 <= i < |taken| ==> !Malformed(c, taken[i])
    ensures MalformedUpTo(c, taken, n) == 0
  {
    if n > 0 {
      NoneMalformed(c, taken, n - 1);
      hide Malformed;
    }
  }

  /** Among such transports no sample, own or foreign, is ever counted as malformed. */
  lemma NothingMalformed<B(!new), S(!new), M>(link: Link<B, S, M>, w: World<B, S, M>, steps: seq<WorldStep<B, S>>,
                                              v: World<B, S, M>, n: nat)
    requires RoundTrips(link) && Fresh(link, w) && WorldAfter(link, w, steps) == Some(v) && n in v.nodes
    ensures Count(v.nodes[n].state.health, MalformedSample) == 0
  {
    hide Reachable, WorldAfter;
    FreshOk(link, w);
    WorldOkAfter(link, w, steps, v);
    var node := v.nodes[n];
    var taken := node.state.history.taken;
    forall i | 0 <= i < |taken|
      ensures !Malformed(node.config, taken[i])
    {
      if taken[i].Some? {
        assert OnTopic(v.topic, taken[i].value);
        var k :| 0 <= k < |v.topic| && v.topic[k].sample == taken[i].value;
        assert WrittenOk(link, v.nodes, v.topic[k]);
        assert Restores(link, v.nodes[v.topic[k].sender].config.originId, v.topic[k].content);
      }
    }
    MalformedCounted(node.config, node.state);
    NoneMalformed(node.config, taken, node.state.history.examined);
  }

  // ---------- Delivery ----------

  /** The same steps, each taken at node `n`. */
  ghost function At<B, S>(n: nat, steps: seq<Step<S>>): seq<WorldStep<B, S>> {
    if steps == [] then [] else [Local(n, steps[0])] + At(n, steps[1..])
  }

  /** A run of one transport that takes only what is on the topic is a run of the world. */
  lemma {:induction false} LocalRun<B, S, M>(link: Link<B, S, M>, w: World<B, S, M>, n: nat, steps: seq<Step<S>>,
                                             t: State<S, M>)
    requires n in w.nodes && After(w.nodes[n].config, w.nodes[n].state, steps) == Some(t)
    requires forall i :: 0 <= i < |steps| ==> TakesFrom(w.topic, steps[i])
    ensures WorldAfter(link, w, At(n, steps)) == Some(w.(nodes := w.nodes[n := Node(w.nodes[n].config, t)]))
    decreases steps
  {
    hide Next, TakesFrom;
    if steps == [] {
      assert w.nodes[n := Node(w.nodes[n].config, t)] == w.nodes;
    } else {
      var c, mid := w.nodes[n].config, Next(w.nodes[n].config, w.nodes[n].state, steps[0]).value;
      var v := w.(nodes := w.nodes[n := Node(c, mid)]);
      assert TakesFrom(w.topic, steps[0]);
      assert WorldNext(link, w, Local(n, steps[0])) == Some(v);
      LocalRun(link, v, n, steps[1..], t);
      assert v.nodes[n := Node(c, t)] == w.nodes[n := Node(c, t)];
      WorldAfterCons(link, w, Local(n, steps[0]), v, At(n, steps[1..]));
    }
  }

  lemma WorldAfterCons<B, S, M>(link: Link<B, S, M>, w: World<B, S, M>, step: WorldStep<B, S>, v: World<B, S, M>,
                                rest: seq<WorldStep<B, S>>)
    requires WorldNext(link, w, step) == Some(v)
    ensures WorldAfter(link, w, [step] + rest) == WorldAfter(link, v, rest)
  {
    hide WorldNext;
    assert ([step] + rest)[1..] == rest;
  }

  /**
   What is sent can arrive: among fresh transports, if the filters of a listener match the addresses of what another
   transport sends, some run registers that listener, sends, and begins its callback with just that.
   */
  lemma DeliveryHappens<B(!new), S(!new), M(!new)>(link: Link<B, S, M>, w: World<B, S, M>, sender: nat, receiver: nat,
                                                   content: B, key: Key)
    returns (steps: seq<WorldStep<B, S>>, v: World<B, S, M>)
    requires RoundTrips(link) && Fresh(link, w) && sender in w.nodes && receiver in w.nodes
    requires w.nodes[sender].config.originId != w.nodes[receiver].config.originId
    requires Validated(w.nodes[receiver].config)
    requires link.sendable(content) && link.encode(w.nodes[sender].config.originId, content).Ok?
    requires var matches := w.nodes[receiver].config.matches;
             && matches(key.source, link.from(content))
             && (key.sink.None? <==> link.to(content).None?)
             && (key.sink.Some? ==> matches(key.sink.value, link.to(content).value))
    ensures WorldAfter(link, w, steps) == Some(v) && receiver in v.nodes
    ensures v.nodes[receiver].state.history.started == [Job(0, 0, link.meaning(content))]
    ensures v.nodes[receiver].state.registry.keys == [key]
  {
    var c, sample := w.nodes[receiver].config, link.encode(w.nodes[sender].config.originId, content).value;
    assert Restores(link, w.nodes[sender].config.originId, content);
    assert Deliverable(c, key, sample, link.meaning(content));
    var local, s := ReachesCallback(c, key, sample, link.meaning(content));
    var mid := w.(topic := [Written(sender, content, sample)]);
    assert w.topic + [Written(sender, content, sample)] == mid.topic;
    assert WorldNext(link, w, Send(sender, content)) == Some(mid);
    forall i | 0 <= i < |local|
      ensures TakesFrom(mid.topic, local[i])
    {
      assert OnTopic(mid.topic, sample) by {
        assert mid.topic[0].sample == sample;
      }
    }
    hide After, Deliverable, Restores, WorldNext, WorldAfter;
    LocalRun(link, mid, receiver, local, s);
    v := mid.(nodes := mid.nodes[receiver := Node(c, s)]);
    steps := [Send(sender, content)] + At(receiver, local);
    WorldAfterCons(link, w, Send(sender, content), mid, At(receiver, local));
  }
}
