/** The stream-source topology compiler: the earlier `ContextBuilder` that
    turns a network definition into a network context made of auditors,
    components, instances and streams. Each component lists the inputs it
    consumes; an input names the component it reads from (by name), a stream
    and a grouping. For every input whose two components both exist, each
    instance of the consuming component gets one input stream holding one
    fresh connection, and every instance of the producing component gets one
    output stream listing exactly those connections.

    Builders that the Java code mutates in place are modelled by reassigning
    the `Components` map; connection addresses come from a `UuidSource`; the
    order in which the `inputs` hash map is walked is left open (`:|`). */
module StreamContextBuilder {
  import opened Common

  // ---------------------------------------------------------------------------
  // Network definition (the input).

  datatype ComponentKind =
    | ModuleKind(moduleName: string)
    | VerticleKind(main: string, worker: bool, multiThreaded: bool)

  /** An input of a component: it consumes `stream` of the component named
      `address`, grouped by `grouping`. */
  datatype Input = Input(address: string, stream: string, grouping: string)

  datatype Component = Component(
    name: string,
    address: Option<string>,
    kind: ComponentKind,
    config: JsonObject,
    hooks: seq<string>,
    group: string,
    instances: int,
    inputs: seq<Input>)

  datatype Network = Network(
    address: string,
    ackingEnabled: bool,
    messageTimeout: int,
    numAuditors: int,
    components: seq<Component>)

  // ---------------------------------------------------------------------------
  // Network context (the output).

  /** An input stream listens on a single connection. */
  datatype InputStream = InputStream(stream: string, connection: string)

  /** An output stream feeds a list of connections. */
  datatype OutputStream = OutputStream(stream: string, grouping: string, connections: seq<string>)

  datatype InstanceContext = InstanceContext(
    id: string,
    number: nat,
    inputs: seq<InputStream>,
    outputs: seq<OutputStream>)

  datatype ComponentContext = ComponentContext(
    name: string,
    address: string,
    kind: ComponentKind,
    config: JsonObject,
    hooks: seq<string>,
    group: string,
    instances: seq<InstanceContext>)

  /** The builder's `components` map, keyed by component name. */
  type Components = map<string, ComponentContext>

  datatype NetworkContext = NetworkContext(
    address: string,
    ackingEnabled: bool,
    messageTimeout: int,
    auditors: set<string>,
    components: Components)

  // ---------------------------------------------------------------------------
  // Auditors: "<address>.auditor.<i>" for i in 1..numAuditors.

  function AuditorAddress(address: string, i: nat): string
  {
    address + ".auditor." + NatToString(i)
  }

  ghost function Auditors(address: string, n: int): set<string>
  {
    set i: nat | 1 <= i <= n :: AuditorAddress(address, i)
  }

  lemma AuditorsStep(address: string, n: nat)
    requires n >= 1
    ensures Auditors(address, n) == Auditors(address, n - 1) + {AuditorAddress(address, n)}
    ensures AuditorAddress(address, n) !in Auditors(address, n - 1)
  {
    if AuditorAddress(address, n) in Auditors(address, n - 1) {
      var i: nat :| 1 <= i <= n - 1 && AuditorAddress(address, i) == AuditorAddress(address, n);
      SuffixedInjective(address + ".auditor.", i, n);
      assert false;
    }
  }

  /** The auditor set has one address per auditor: no two auditors share one. */
  lemma {:induction false} AuditorCount(address: string, n: int)
    ensures |Auditors(address, n)| == if n < 0 then 0 else n
    decreases if n < 0 then 0 else n
  {
    if n <= 0 {
      assert Auditors(address, n) == {};
    } else {
      AuditorCount(address, n - 1);
      AuditorsStep(address, n);
    }
  }

  /** The auditor loop of `buildContext`. */
  method BuildAuditors(address: string, numAuditors: int) returns (auditors: set<string>)
    ensures auditors == Auditors(address, numAuditors)
    ensures |auditors| == if numAuditors < 0 then 0 else numAuditors
  {
    auditors := {};
    var i := 1;
    while i <= numAuditors
      invariant 1 <= i <= (if numAuditors < 0 then 0 else numAuditors) + 1
      invariant auditors == Auditors(address, i - 1)
      invariant |auditors| == i - 1
    {
      AuditorsStep(address, i);
      auditors := auditors + {AuditorAddress(address, i)};
      i := i + 1;
    }
    assert Auditors(address, i - 1) == Auditors(address, numAuditors);
  }

  // ---------------------------------------------------------------------------
  // Components and instances.

  /** The explicit address when one is given, else "<network>.<name>" (the
      default pattern "%1$s.%2$s"). */
  function ComponentAddressFor(network: Network, c: Component): string
  {
    match c.address
    case Some(a) => a
    case None => network.address + "." + c.name
  }

  function InstanceId(address: string, number: nat): string
  {
    address + "-" + NatToString(number)
  }

  function NewInstance(address: string, number: nat): InstanceContext
  {
    InstanceContext(InstanceId(address, number), number, [], [])
  }

  function Instances(address: string, n: int): (r: seq<InstanceContext>)
    ensures |r| == if n < 0 then 0 else n
  {
    seq(if n < 0 then 0 else n, j requires 0 <= j => NewInstance(address, j + 1))
  }

  /** The instance loop of `buildContext`: instances numbered 1..n with ids
      "<address>-<i>" and no streams. */
  method BuildInstances(address: string, n: int) returns (instances: seq<InstanceContext>)
    ensures |instances| == if n < 0 then 0 else n
    ensures forall j :: 0 <= j < |instances| ==>
      && instances[j].number == j + 1
      && instances[j].id == address + "-" + NatToString(j + 1)
      && instances[j].inputs == [] && instances[j].outputs == []
  {
    instances := [];
    var i := 1;
    while i <= n
      invariant 1 <= i <= (if n < 0 then 0 else n) + 1
      invariant |instances| == i - 1
      invariant forall j :: 0 <= j < |instances| ==> instances[j] == NewInstance(address, j + 1)
    {
      instances := instances + [NewInstance(address, i)];
      i := i + 1;
    }
  }

  /** Distinct instances of a component have distinct ids. */
  lemma InstanceIdsDistinct(address: string, n: int, j: nat, k: nat)
    requires j < k < |Instances(address, n)|
    ensures Instances(address, n)[j].id != Instances(address, n)[k].id
  {
    if Instances(address, n)[j].id == Instances(address, n)[k].id {
      SuffixedInjective(address + "-", j + 1, k + 1);
    }
  }

  /** The context a component definition yields before any stream is wired. */
  function ComponentContextFor(network: Network, c: Component): (r: ComponentContext)
    ensures r.name == c.name
    ensures c.address.Some? ==> r.address == c.address.value
    ensures c.address.None? ==> r.address == network.address + "." + c.name
    ensures r.kind == c.kind && r.config == c.config && r.hooks == c.hooks && r.group == c.group
    ensures |r.instances| == if c.instances < 0 then 0 else c.instances
    ensures forall j :: 0 <= j < |r.instances| ==>
      r.instances[j] == InstanceContext(r.address + "-" + NatToString(j + 1), j + 1, [], [])
  {
    var address := ComponentAddressFor(network, c);
    ComponentContext(c.name, address, c.kind, c.config, c.hooks, c.group, Instances(address, c.instances))
  }

  /** The `components` map after the first n definitions. */
  function ComponentMap(network: Network, n: nat): Components
    requires n <= |network.components|
  {
    if n == 0 then map[]
    else
      var c := network.components[n - 1];
      ComponentMap(network, n - 1)[c.name := ComponentContextFor(network, c)]
  }

  /** The `inputs` map after the first n definitions. */
  function InputMap(network: Network, n: nat): map<string, seq<Input>>
    requires n <= |network.components|
  {
    if n == 0 then map[]
    else
      var c := network.components[n - 1];
      InputMap(network, n - 1)[c.name := c.inputs]
  }

  ghost function Names(network: Network, n: nat): set<string>
    requires n <= |network.components|
  {
    set k | 0 <= k < n :: network.components[k].name
  }

  /** Both maps are keyed by exactly the names defined so far. */
  lemma {:induction false} MapKeys(network: Network, n: nat)
    requires n <= |network.components|
    ensures ComponentMap(network, n).Keys == Names(network, n)
    ensures InputMap(network, n).Keys == Names(network, n)
  {
    if n > 0 {
      MapKeys(network, n - 1);
      assert Names(network, n) == Names(network, n - 1) + {network.components[n - 1].name};
    }
  }

  /** For a name defined more than once, the last definition wins in both maps. */
  lemma {:induction false} MapLookup(network: Network, n: nat, k: nat)
    requires k < n <= |network.components|
    requires forall l :: k < l < n ==> network.components[l].name != network.components[k].name
    ensures network.components[k].name in ComponentMap(network, n)
    ensures ComponentMap(network, n)[network.components[k].name] == ComponentContextFor(network, network.components[k])
    ensures network.components[k].name in InputMap(network, n)
    ensures InputMap(network, n)[network.components[k].name] == network.components[k].inputs
  {
    if k < n - 1 {
      MapLookup(network, n - 1, k);
    }
  }

  /** Before wiring, no instance has a stream. */
  lemma {:induction false} ComponentMapUnwired(network: Network, n: nat)
    requires n <= |network.components|
    ensures forall k, j :: k in ComponentMap(network, n) && 0 <= j < |ComponentMap(network, n)[k].instances| ==>
      ComponentMap(network, n)[k].instances[j].inputs == [] && ComponentMap(network, n)[k].instances[j].outputs == []
  {
    if n > 0 {
      ComponentMapUnwired(network, n - 1);
    }
  }

  // ---------------------------------------------------------------------------
  // Wiring one input.

  /** Both components of an input exist, so it is wired (otherwise skipped). */
  predicate Live(comps: Components, consumer: string, input: Input)
  {
    consumer in comps && input.address in comps
  }

  function WithInputStreams(insts: seq<InstanceContext>, stream: string, ids: seq<string>): (r: seq<InstanceContext>)
    requires |ids| == |insts|
    ensures |r| == |insts|
  {
    seq(|insts|, j requires 0 <= j < |insts| => insts[j].(inputs := insts[j].inputs + [InputStream(stream, ids[j])]))
  }

  function WithOutputStream(insts: seq<InstanceContext>, out: OutputStream): (r: seq<InstanceContext>)
    ensures |r| == |insts|
  {
    seq(|insts|, j requires 0 <= j < |insts| => insts[j].(outputs := insts[j].outputs + [out]))
  }

  /** The context after wiring `input` of component `consumer`, where `ids`
      are the connections drawn, one per consuming instance, in order. */
  function Wire(comps: Components, consumer: string, input: Input, ids: seq<string>): (r: Components)
    requires Live(comps, consumer, input) ==> |ids| == |comps[consumer].instances|
    ensures r.Keys == comps.Keys
  {
    if !Live(comps, consumer, input) then comps
    else
      var c := comps[consumer];
      var comps1 := comps[consumer := c.(instances := WithInputStreams(c.instances, input.stream, ids))];
      var s := comps1[input.address];
      var out := OutputStream(input.stream, input.grouping, ids);
      comps1[input.address := s.(instances := WithOutputStream(s.instances, out))]
  }

  /** One iteration of the loop over a component's inputs. */
  method WireInput(comps: Components, consumer: string, input: Input, uuids: UuidSource)
    returns (r: Components, ids: seq<string>)
    requires uuids.Valid()
    modifies uuids
    ensures uuids.Valid()
    ensures !Live(comps, consumer, input) ==> ids == [] && r == comps
    ensures Live(comps, consumer, input) ==> |ids| == |comps[consumer].instances|
    ensures r == Wire(comps, consumer, input, ids)
    ensures uuids.issued == old(uuids.issued) + set x | x in ids
    ensures forall j :: 0 <= j < |ids| ==> ids[j] !in old(uuids.issued)
    ensures forall j, k :: 0 <= j < k < |ids| ==> ids[j] != ids[k]
  {
    if consumer !in comps || input.address !in comps {
      return comps, [];
    }
    // Input instances: one fresh connection each, collected for the output stream.
    var c := comps[consumer];
    var insts := c.instances;
    ids := [];
    var j := 0;
    while j < |insts|
      invariant 0 <= j <= |insts| == |c.instances|
      invariant |ids| == j
      invariant forall x :: 0 <= x < j ==> insts[x] == c.instances[x].(inputs := c.instances[x].inputs + [InputStream(input.stream, ids[x])])
      invariant forall x :: j <= x < |insts| ==> insts[x] == c.instances[x]
      invariant uuids.Valid()
      invariant uuids.issued == old(uuids.issued) + set x | x in ids
      invariant forall x :: 0 <= x < j ==> ids[x] !in old(uuids.issued)
      invariant forall x, y :: 0 <= x < y < j ==> ids[x] != ids[y]
    {
      var id := uuids.Next();
      insts := insts[j := insts[j].(inputs := insts[j].inputs + [InputStream(input.stream, id)])];
      ids := ids + [id];
      j := j + 1;
    }
    assert insts == WithInputStreams(c.instances, input.stream, ids);
    r := comps[consumer := c.(instances := insts)];
    // Output instances: each receives the same output stream.
    var s := r[input.address];
    var out := OutputStream(input.stream, input.grouping, ids);
    var outs := s.instances;
    j := 0;
    while j < |outs|
      invariant 0 <= j <= |outs| == |s.instances|
      invariant forall x :: 0 <= x < j ==> outs[x] == s.instances[x].(outputs := s.instances[x].outputs + [out])
      invariant forall x :: j <= x < |outs| ==> outs[x] == s.instances[x]
    {
      outs := outs[j := outs[j].(outputs := outs[j].outputs + [out])];
      j := j + 1;
    }
    assert outs == WithOutputStream(s.instances, out);
    r := r[input.address := s.(instances := outs)];
  }

  // ---------------------------------------------------------------------------
  // What wiring one input does.

  /** Each consuming instance gains exactly one input stream, on the input's
      stream and holding its own connection `ids[j]`; nothing else of it changes. */
  lemma WireConsumer(comps: Components, consumer: string, input: Input, ids: seq<string>)
    requires Live(comps, consumer, input) && |ids| == |comps[consumer].instances|
    ensures |Wire(comps, consumer, input, ids)[consumer].instances| == |ids|
    ensures forall j :: 0 <= j < |ids| ==>
      Wire(comps, consumer, input, ids)[consumer].instances[j].inputs
        == comps[consumer].instances[j].inputs + [InputStream(input.stream, ids[j])]
  {
  }

  /** Each instance of the producing component gains exactly one output stream,
      carrying the input's stream name and grouping and listing `ids`. */
  lemma WireProducer(comps: Components, consumer: string, input: Input, ids: seq<string>)
    requires Live(comps, consumer, input) && |ids| == |comps[consumer].instances|
    ensures |Wire(comps, consumer, input, ids)[input.address].instances| == |comps[input.address].instances|
    ensures forall j :: 0 <= j < |comps[input.address].instances| ==>
      Wire(comps, consumer, input, ids)[input.address].instances[j].outputs
        == comps[input.address].instances[j].outputs + [OutputStream(input.stream, input.grouping, ids)]
  {
  }

  /** The new output stream of every producing instance lists exactly the
      connections of the new input streams, one per consuming instance, in
      instance order: the two sides agree one-to-one. */
  lemma WireLinks(comps: Components, consumer: string, input: Input, ids: seq<string>, p: nat)
    requires Live(comps, consumer, input) && |ids| == |comps[consumer].instances|
    requires p < |comps[input.address].instances|
    ensures var r := Wire(comps, consumer, input, ids);
      var outs := r[input.address].instances[p].outputs;
      && |outs| > 0
      && |outs[|outs| - 1].connections| == |r[consumer].instances|
      && forall j :: 0 <= j < |r[consumer].instances| ==>
           var ins := r[consumer].instances[j].inputs;
           |ins| > 0 && ins[|ins| - 1].connection == outs[|outs| - 1].connections[j]
  {
    WireConsumer(comps, consumer, input, ids);
    WireProducer(comps, consumer, input, ids);
  }

  // ---------------------------------------------------------------------------
  // What wiring never changes.

  function Bare(inst: InstanceContext): InstanceContext
  {
    inst.(inputs := [], outputs := [])
  }

  /** Same components, instances, ids and numbers: only streams may differ. */
  ghost predicate SameSkeleton(a: Components, b: Components)
  {
    && a.Keys == b.Keys
    && (forall k :: k in a ==> a[k].(instances := []) == b[k].(instances := []) && |a[k].instances| == |b[k].instances|)
    && (forall k, j :: k in a && 0 <= j < |a[k].instances| ==> Bare(a[k].instances[j]) == Bare(b[k].instances[j]))
  }

  lemma SameSkeletonTrans(a: Components, b: Components, d: Components)
    requires SameSkeleton(a, b) && SameSkeleton(b, d)
    ensures SameSkeleton(a, d)
  {
  }

  /** Wiring changes streams only, and only the inputs of the consuming
      component and the outputs of the producing one. */
  lemma WireFrame(comps: Components, consumer: string, input: Input, ids: seq<string>)
    requires Live(comps, consumer, input) ==> |ids| == |comps[consumer].instances|
    ensures SameSkeleton(comps, Wire(comps, consumer, input, ids))
    ensures forall k :: k in comps && k != consumer && k != input.address ==> Wire(comps, consumer, input, ids)[k] == comps[k]
    ensures forall k, j :: k in comps && k != consumer && 0 <= j < |comps[k].instances| ==>
      Wire(comps, consumer, input, ids)[k].instances[j].inputs == comps[k].instances[j].inputs
  {
    var r := Wire(comps, consumer, input, ids);
    if Live(comps, consumer, input) {
      WireConsumer(comps, consumer, input, ids);
      WireProducer(comps, consumer, input, ids);
      forall k, j | k in comps && 0 <= j < |comps[k].instances|
        ensures Bare(comps[k].instances[j]) == Bare(r[k].instances[j])
      {
      }
    }
  }

  /** Every input stream's connection lies in `pool`. */
  ghost predicate DrawnFrom(comps: Components, pool: set<string>)
  {
    forall k, j, x :: k in comps && 0 <= j < |comps[k].instances| && 0 <= x < |comps[k].instances[j].inputs| ==>
      comps[k].instances[j].inputs[x].connection in pool
  }

  lemma DrawnFromMono(comps: Components, p: set<string>, q: set<string>)
    requires DrawnFrom(comps, p) && p <= q
    ensures DrawnFrom(comps, q)
  {
  }

  /** Ids drawn after `before` was issued are new since any earlier point. */
  lemma PoolStep(pool: set<string>, start: set<string>, before: set<string>, after: set<string>, ids: seq<string>)
    requires start <= before && after == before + set x | x in ids
    requires forall j :: 0 <= j < |ids| ==> ids[j] !in before
    ensures pool + (before - start) + (set x | x in ids) <= pool + (after - start)
  {
  }

  /** The only connections wiring adds are the drawn ones. */
  lemma WireDrawnFrom(comps: Components, consumer: string, input: Input, ids: seq<string>, pool: set<string>)
    requires Live(comps, consumer, input) ==> |ids| == |comps[consumer].instances|
    requires DrawnFrom(comps, pool)
    ensures DrawnFrom(Wire(comps, consumer, input, ids), pool + set x | x in ids)
  {
    var r := Wire(comps, consumer, input, ids);
    WireFrame(comps, consumer, input, ids);
    if Live(comps, consumer, input) {
      WireConsumer(comps, consumer, input, ids);
      forall k, j, x | k in r && 0 <= j < |r[k].instances| && 0 <= x < |r[k].instances[j].inputs|
        ensures r[k].instances[j].inputs[x].connection in pool + set x | x in ids
      {
        if k == consumer && x == |comps[k].instances[j].inputs| {
          assert r[k].instances[j].inputs[x].connection == ids[j];
        } else {
          assert r[k].instances[j].inputs[x] == comps[k].instances[j].inputs[x];
        }
      }
    }
  }

  // ---------------------------------------------------------------------------
  // All inputs of one component, then all components.

  /** How many of `inputs` name an existing producing component. */
  function LiveInputs(inputs: seq<Input>, names: set<string>): (r: nat)
    ensures r <= |inputs|
  {
    if inputs == [] then 0
    else LiveInputs(inputs[..|inputs| - 1], names) + (if inputs[|inputs| - 1].address in names then 1 else 0)
  }

  /** One more input of `consumer` wired: one more input stream on each of its
      instances when the input is live, and no other input stream changes. */
  lemma WireInputsStep(comps: Components, r: Components, consumer: string, inputs: seq<Input>, i: nat, ids: seq<string>)
    requires i < |inputs| && consumer in comps && SameSkeleton(comps, r)
    requires Live(r, consumer, inputs[i]) ==> |ids| == |r[consumer].instances|
    requires forall j :: 0 <= j < |r[consumer].instances| ==>
      |r[consumer].instances[j].inputs| == |comps[consumer].instances[j].inputs| + LiveInputs(inputs[..i], comps.Keys)
    requires forall k, j :: k in r && k != consumer && 0 <= j < |r[k].instances| ==>
      r[k].instances[j].inputs == comps[k].instances[j].inputs
    ensures var next := Wire(r, consumer, inputs[i], ids);
      && SameSkeleton(comps, next)
      && (forall j :: 0 <= j < |next[consumer].instances| ==>
           |next[consumer].instances[j].inputs| == |comps[consumer].instances[j].inputs| + LiveInputs(inputs[..i + 1], comps.Keys))
      && (forall k, j :: k in next && k != consumer && 0 <= j < |next[k].instances| ==>
           next[k].instances[j].inputs == comps[k].instances[j].inputs)
  {
    var next := Wire(r, consumer, inputs[i], ids);
    WireFrame(r, consumer, inputs[i], ids);
    SameSkeletonTrans(comps, r, next);
    assert inputs[..i + 1][..i] == inputs[..i];
    assert LiveInputs(inputs[..i + 1], comps.Keys)
      == LiveInputs(inputs[..i], comps.Keys) + (if inputs[i].address in comps.Keys then 1 else 0);
    if Live(r, consumer, inputs[i]) {
      WireConsumer(r, consumer, inputs[i], ids);
    }
  }

  /** The loop over the inputs of component `consumer`. */
  method WireInputs(comps: Components, consumer: string, inputs: seq<Input>, uuids: UuidSource, ghost pool: set<string>)
    returns (r: Components)
    requires consumer in comps && uuids.Valid() && DrawnFrom(comps, pool)
    modifies uuids
    ensures uuids.Valid() && old(uuids.issued) <= uuids.issued
    ensures SameSkeleton(comps, r)
    ensures forall j :: 0 <= j < |r[consumer].instances| ==>
      |r[consumer].instances[j].inputs| == |comps[consumer].instances[j].inputs| + LiveInputs(inputs, comps.Keys)
    ensures forall k, j :: k in r && k != consumer && 0 <= j < |r[k].instances| ==>
      r[k].instances[j].inputs == comps[k].instances[j].inputs
    ensures DrawnFrom(r, pool + (uuids.issued - old(uuids.issued)))
  {
    r := comps;
    var i := 0;
    assert inputs[..0] == [];
    assert LiveInputs(inputs[..0], comps.Keys) == 0;
    while i < |inputs|
      invariant 0 <= i <= |inputs|
      invariant uuids.Valid() && old(uuids.issued) <= uuids.issued
      invariant SameSkeleton(comps, r)
      invariant forall j :: 0 <= j < |r[consumer].instances| ==>
        |r[consumer].instances[j].inputs| == |comps[consumer].instances[j].inputs| + LiveInputs(inputs[..i], comps.Keys)
      invariant forall k, j :: k in r && k != consumer && 0 <= j < |r[k].instances| ==>
        r[k].instances[j].inputs == comps[k].instances[j].inputs
      invariant DrawnFrom(r, pool + (uuids.issued - old(uuids.issued)))
    {
      ghost var before := uuids.issued;
      var next, ids := WireInput(r, consumer, inputs[i], uuids);
      assert next == Wire(r, consumer, inputs[i], ids);
      WireInputsStep(comps, r, consumer, inputs, i, ids);
      WireDrawnFrom(r, consumer, inputs[i], ids, pool + (before - old(uuids.issued)));
      PoolStep(pool, old(uuids.issued), before, uuids.issued, ids);
      DrawnFromMono(next, pool + (before - old(uuids.issued)) + (set x | x in ids), pool + (uuids.issued - old(uuids.issued)));
      r := next;
      i := i + 1;
    }
    assert inputs[..i] == inputs;
  }

  /** The loop over component definitions: contexts without streams, and
      each component's inputs kept for later. */
  method BuildComponents(network: Network) returns (comps: Components, inputs: map<string, seq<Input>>)
    ensures comps == ComponentMap(network, |network.components|)
    ensures inputs == InputMap(network, |network.components|)
  {
    comps := map[];
    inputs := map[];
    var i := 0;
    while i < |network.components|
      invariant 0 <= i <= |network.components|
      invariant comps == ComponentMap(network, i)
      invariant inputs == InputMap(network, i)
    {
      var c := network.components[i];
      inputs := inputs[c.name := c.inputs];
      var address := if c.address.Some? then c.address.value else network.address + "." + c.name;
      var instances := BuildInstances(address, c.instances);
      assert instances == Instances(address, c.instances);
      comps := comps[c.name := ComponentContext(c.name, address, c.kind, c.config, c.hooks, c.group, instances)];
      i := i + 1;
    }
  }

  /** The loop over the entries of the `inputs` map, taken in any order: every
      instance ends up with one input stream per live input of its component. */
  method WireAll(comps: Components, inputs: map<string, seq<Input>>, uuids: UuidSource) returns (r: Components)
    requires inputs.Keys == comps.Keys
    requires forall k, j :: k in comps && 0 <= j < |comps[k].instances| ==> comps[k].instances[j].inputs == []
    requires uuids.Valid()
    modifies uuids
    ensures uuids.Valid() && old(uuids.issued) <= uuids.issued
    ensures SameSkeleton(comps, r)
    ensures forall k, j :: k in r && 0 <= j < |r[k].instances| ==>
      |r[k].instances[j].inputs| == LiveInputs(inputs[k], comps.Keys)
    ensures DrawnFrom(r, uuids.issued - old(uuids.issued))
  {
    r := comps;
    var remaining := inputs.Keys;
    while remaining != {}
      invariant remaining <= comps.Keys
      invariant uuids.Valid() && old(uuids.issued) <= uuids.issued
      invariant SameSkeleton(comps, r)
      invariant forall k, j :: k in r && 0 <= j < |r[k].instances| ==>
        |r[k].instances[j].inputs| == if k in remaining then 0 else LiveInputs(inputs[k], comps.Keys)
      invariant DrawnFrom(r, uuids.issued - old(uuids.issued))
      decreases remaining
    {
      var k :| k in remaining;
      var next := WireInputs(r, k, inputs[k], uuids, uuids.issued - old(uuids.issued));
      SameSkeletonTrans(comps, r, next);
      r := next;
      remaining := remaining - {k};
    }
  }

  /** `buildContext`: copies the network settings, builds the auditors and
      the components, then wires every input of every component. */
  method BuildContext(network: Network, uuids: UuidSource) returns (context: NetworkContext)
    requires uuids.Valid()
    modifies uuids
    ensures uuids.Valid()
    ensures context.address == network.address
    ensures context.ackingEnabled == network.ackingEnabled
    ensures context.messageTimeout == network.messageTimeout
    ensures context.auditors == Auditors(network.address, network.numAuditors)
    ensures |context.auditors| == if network.numAuditors < 0 then 0 else network.numAuditors
    ensures context.components.Keys == Names(network, |network.components|)
    ensures SameSkeleton(ComponentMap(network, |network.components|), context.components)
    ensures forall k, j :: k in context.components && 0 <= j < |context.components[k].instances| ==>
      k in InputMap(network, |network.components|) &&
      |context.components[k].instances[j].inputs|
        == LiveInputs(InputMap(network, |network.components|)[k], context.components.Keys)
    ensures DrawnFrom(context.components, uuids.issued - old(uuids.issued))
  {
    var auditors := BuildAuditors(network.address, network.numAuditors);
    var comps, inputs := BuildComponents(network);
    MapKeys(network, |network.components|);
    ComponentMapUnwired(network, |network.components|);
    comps := WireAll(comps, inputs, uuids);
    context := NetworkContext(network.address, network.ackingEnabled, network.messageTimeout, auditors, comps);
  }

  /** In the built context, the component of a name keeps what its last
      definition gave it: name, the explicit or default address, kind,
      config, hooks, group, and instances numbered 1..N with ids
      "<address>-<i>". Only streams are added. */
  lemma BuiltComponent(network: Network, comps: Components, k: nat)
    requires k < |network.components|
    requires forall l :: k < l < |network.components| ==> network.components[l].name != network.components[k].name
    requires SameSkeleton(ComponentMap(network, |network.components|), comps)
    ensures var c := network.components[k];
      && c.name in comps
      && comps[c.name].name == c.name
      && comps[c.name].address == (if c.address.Some? then c.address.value else network.address + "." + c.name)
      && comps[c.name].kind == c.kind && comps[c.name].config == c.config
      && comps[c.name].hooks == c.hooks && comps[c.name].group == c.group
      && |comps[c.name].instances| == (if c.instances < 0 then 0 else c.instances)
      && forall j :: 0 <= j < |comps[c.name].instances| ==>
           comps[c.name].instances[j].id == comps[c.name].address + "-" + NatToString(j + 1)
           && comps[c.name].instances[j].number == j + 1
  {
    var c := network.components[k];
    var built := ComponentMap(network, |network.components|);
    MapLookup(network, |network.components|, k);
    var cc := ComponentContextFor(network, c);
    assert built[c.name].(instances := []) == comps[c.name].(instances := []);
    forall j | 0 <= j < |comps[c.name].instances|
      ensures comps[c.name].instances[j].id == comps[c.name].address + "-" + NatToString(j + 1)
      ensures comps[c.name].instances[j].number == j + 1
    {
      assert Bare(built[c.name].instances[j]) == Bare(comps[c.name].instances[j]);
    }
  }

  // ---------------------------------------------------------------------------
  // Merging.

  /** `mergeContexts`: rejected when the addresses differ, otherwise the base. */
  function MergeContexts(base: NetworkContext, merge: NetworkContext): (r: Result<NetworkContext, string>)
    ensures r.Success? <==> base.address == merge.address
    ensures r.Success? ==> r.value == base
  {
    if base.address != merge.address then Failure("Network addresses must match for merge.")
    else Success(base)
  }

  /** `unmergeContexts`: always the base. */
  function UnmergeContexts(base: NetworkContext, merge: NetworkContext): (r: NetworkContext)
    ensures r == base
  {
    base
  }

  /** Merging reads nothing of the merged context but its address: any two
      contexts at the base's address merge to the same result, the base
      itself, so no component of `merge` reaches the merged network. */
  lemma MergeIgnoresContents(base: NetworkContext, m1: NetworkContext, m2: NetworkContext)
    requires m1.address == base.address && m2.address == base.address
    ensures MergeContexts(base, m1) == MergeContexts(base, m2) == Success(base)
  {
  }
}
