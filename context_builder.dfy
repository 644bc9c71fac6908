/** The port-to-port topology compiler: `ContextBuilder.buildContext` turns a
    network configuration into a context graph. Every component becomes a
    component context with instances numbered 1..N; every connection config
    adds, for each source instance, one output connection on a find-or-create
    output port, and for each (source instance, target instance) pair one input
    connection on a find-or-create input port of the target instance.

    The graph is a value: builders that the Java code mutates in place are
    modelled by reassigning the `Components` map. Each loop of the Java method
    is a loop of `BuildContext` (or of the method it is split into), proved
    equal to a fold: a left fold over the processed prefix for the component,
    connection and target-instance loops, a right fold over the remaining
    source instances for the source-instance loop. The closed forms and the
    linking invariants are proved about those folds in `ContextBuilderProofs`. */
module ContextBuilder {
  import opened Common

  const STATUS_SUFFIX: string := ".__status"

  // ---------------------------------------------------------------------------
  // Network configuration (the input).

  datatype ComponentKind =
    | ModuleKind(moduleName: string)
    | VerticleKind(main: string, worker: bool, multiThreaded: bool)

  datatype ComponentConfig = ComponentConfig(
    name: string,
    kind: ComponentKind,
    instances: int,
    config: JsonObject,
    hooks: seq<string>,
    group: string,
    /** The component's storage class name and its configuration; either may be null. */
    storageType: Option<string>,
    storageConfig: Option<JsonObject>)

  datatype Delivery = AtMostOnce | AtLeastOnce

  datatype Endpoint = Endpoint(component: string, port: string)

  datatype ConnectionConfig = ConnectionConfig(
    source: Endpoint,
    target: Endpoint,
    delivery: Delivery,
    ordered: bool,
    grouping: string)

  datatype NetworkConfig = NetworkConfig(
    name: string,
    components: seq<ComponentConfig>,
    connections: seq<ConnectionConfig>)

  // ---------------------------------------------------------------------------
  // Context graph (the output).

  datatype Order = Ordered | Unordered

  function OrderOf(isOrdered: bool): Order { if isOrdered then Ordered else Unordered }

  datatype InputConnection = InputConnection(
    address: string, delivery: Delivery, order: Order, source: string)

  datatype OutputConnection = OutputConnection(
    address: string, delivery: Delivery, order: Order, grouping: string, targets: seq<string>)

  /** An input or output port: a name, an address and its connections. */
  datatype Port<C> = Port(name: string, address: string, connections: seq<C>)

  type InputPort = Port<InputConnection>
  type OutputPort = Port<OutputConnection>

  datatype InstanceContext = InstanceContext(
    address: string,
    statusAddress: Option<string>,
    number: nat,
    inputs: seq<InputPort>,
    outputs: seq<OutputPort>)

  datatype ComponentContext = ComponentContext(
    name: string,
    address: string,
    statusAddress: string,
    kind: ComponentKind,
    config: JsonObject,
    hooks: seq<string>,
    group: string,
    storageType: Option<string>,
    storageConfig: Option<JsonObject>,
    instances: seq<InstanceContext>)

  /** The builder's `components` map, keyed by component name. */
  type Components = map<string, ComponentContext>

  datatype NetworkContext = NetworkContext(
    name: string,
    address: string,
    statusAddress: string,
    config: NetworkConfig,
    components: Components)

  // ---------------------------------------------------------------------------
  // Address formats (the default component address pattern "%1$s.%2$s").

  function ComponentAddress(network: string, component: string): string
  {
    network + "." + component
  }

  function StatusAddressOf(address: string): string
  {
    address + STATUS_SUFFIX
  }

  function InstanceAddress(base: string, number: nat): string
  {
    base + "-" + NatToString(number)
  }

  function PortAddress(direction: string, port: string, network: string, component: string, number: nat): string
  {
    direction + ":" + port + "@" + network + "." + component + "[" + NatToString(number) + "]"
  }

  function OutputPortAddress(port: string, network: string, component: string, number: nat): string
  {
    PortAddress("out", port, network, component, number)
  }

  function InputPortAddress(port: string, network: string, component: string, number: nat): string
  {
    PortAddress("in", port, network, component, number)
  }

  /** The output connection of source instance `srcNumber`: it names the target
      component but no target instance. */
  function OutputConnectionAddress(c: ConnectionConfig, network: string, srcName: string, srcNumber: nat, tgtName: string): string
  {
    OutputPortAddress(c.source.port, network, srcName, srcNumber)
      + "->in:" + c.target.port + "@" + network + "." + tgtName + "[]"
  }

  /** The input connection from source instance `srcNumber` to target instance `tgtNumber`. */
  function InputConnectionAddress(c: ConnectionConfig, network: string, srcName: string, srcNumber: nat, tgtName: string, tgtNumber: nat): string
  {
    OutputPortAddress(c.source.port, network, srcName, srcNumber)
      + "->" + InputPortAddress(c.target.port, network, tgtName, tgtNumber)
  }

  // ---------------------------------------------------------------------------
  // Component materialisation.

  function NewInstance(base: string, number: nat, verticle: bool): InstanceContext
  {
    InstanceContext(
      InstanceAddress(base, number),
      if verticle then Some(StatusAddressOf(InstanceAddress(base, number))) else None,
      number, [], [])
  }

  /** The component context `buildContext` creates for one component config,
      before any connection is wired. */
  function ComponentContextFor(network: string, c: ComponentConfig): (r: ComponentContext)
    ensures r.name == c.name && r.kind == c.kind && r.config == c.config
    ensures r.hooks == c.hooks && r.group == c.group
    ensures r.storageType == c.storageType && r.storageConfig == c.storageConfig
    ensures r.address == network + "." + c.name
    ensures r.statusAddress == r.address + ".__status"
    ensures |r.instances| == if c.instances < 0 then 0 else c.instances
    ensures forall k :: 0 <= k < |r.instances| ==>
      && r.instances[k].number == k + 1
      && r.instances[k].address == r.address + "-" + NatToString(k + 1)
      && r.instances[k].inputs == [] && r.instances[k].outputs == []
      && r.instances[k].statusAddress ==
           (if c.kind.VerticleKind? then Some(r.instances[k].address + ".__status") else None)
    ensures forall k, l :: 0 <= k < l < |r.instances| ==> r.instances[k].address != r.instances[l].address
  {
    var address := ComponentAddress(network, c.name);
    var count := if c.instances < 0 then 0 else c.instances;
    var r := ComponentContext(c.name, address, StatusAddressOf(address), c.kind, c.config, c.hooks, c.group,
      c.storageType, c.storageConfig,
      seq(count, k requires 0 <= k => NewInstance(address, k + 1, c.kind.VerticleKind?)));
    assert forall k, l :: 0 <= k < l < |r.instances| ==> r.instances[k].address != r.instances[l].address by {
      forall k, l | 0 <= k < l < |r.instances|
        ensures r.instances[k].address != r.instances[l].address
      {
        if r.instances[k].address == r.instances[l].address {
          SuffixedInjective(address + "-", k + 1, l + 1);
        }
      }
    }
    r
  }

  /** The `components` map after the first loop: a left fold of `put`, so a
      later config with the same name replaces an earlier one. */
  function ComponentMap(network: string, cs: seq<ComponentConfig>): Components
  {
    if cs == [] then map[]
    else ComponentMap(network, cs[..|cs| - 1])[cs[|cs| - 1].name := ComponentContextFor(network, cs[|cs| - 1])]
  }

  // ---------------------------------------------------------------------------
  // Ports: find by name, or create.

  /** The index of the first port called `name`, the one the Java loop stops at. */
  function FirstPortNamed<C>(ports: seq<Port<C>>, name: string): (r: Option<nat>)
    ensures r.Some? ==> r.value < |ports| && ports[r.value].name == name
    ensures r.Some? ==> forall k :: 0 <= k < r.value ==> ports[k].name != name
    ensures r.None? ==> forall k :: 0 <= k < |ports| ==> ports[k].name != name
  {
    if ports == [] then None
    else if ports[0].name == name then Some(0)
    else match FirstPortNamed(ports[1..], name)
      case None => None
      case Some(k) => Some(k + 1)
  }

  /** Find-or-create: the ports afterwards and the index of the port to use. */
  function EnsurePort<C>(ports: seq<Port<C>>, name: string, address: string): (r: (seq<Port<C>>, nat))
    ensures r.1 < |r.0| && FirstPortNamed(r.0, name) == Some(r.1)
    ensures FirstPortNamed(ports, name).Some? ==> r.0 == ports
    ensures FirstPortNamed(ports, name).None? ==>
      r.0 == ports + [Port(name, address, [])] && r.1 == |ports|
  {
    match FirstPortNamed(ports, name)
    case Some(p) => (ports, p)
    case None =>
      var ps := ports + [Port(name, address, [])];
      assert ps[|ports|].name == name;
      (ps, |ports|)
  }

  /** Find-or-create the port called `name` and append `conns` to it; nothing
      changes (no port is created) when there is nothing to append. An existing
      port keeps its place and its address; a new one goes at the end. */
  function Attach<C>(ports: seq<Port<C>>, name: string, address: string, conns: seq<C>): (r: seq<Port<C>>)
    ensures conns == [] ==> r == ports
    ensures conns != [] && FirstPortNamed(ports, name).Some? ==>
      var p := FirstPortNamed(ports, name).value;
      r == ports[p := ports[p].(connections := ports[p].connections + conns)]
    ensures conns != [] && FirstPortNamed(ports, name).None? ==>
      r == ports + [Port(name, address, conns)]
  {
    if conns == [] then ports
    else
      var (ps, p) := EnsurePort(ports, name, address);
      var r := ps[p := ps[p].(connections := ps[p].connections + conns)];
      assert FirstPortNamed(ports, name).None? ==> r == ports + [Port(name, address, conns)] by {
        if FirstPortNamed(ports, name).None? {
          assert ps[p].connections + conns == conns;
          assert r[..|ports|] == ports;
          assert r == r[..|ports|] + [r[|ports|]];
        }
      }
      r
  }

  // ---------------------------------------------------------------------------
  // Connection wiring, one step of each Java loop at a time.

  /** Replace instance `x` of component `n`. */
  function WithInstance(comps: Components, n: string, x: nat, inst: InstanceContext): Components
    requires n in comps && x < |comps[n].instances|
  {
    comps[n := comps[n].(instances := comps[n].instances[x := inst])]
  }

  function InputLink(c: ConnectionConfig, network: string, srcName: string, srcNumber: nat, tgtName: string, tgtNumber: nat): InputConnection
  {
    var address := InputConnectionAddress(c, network, srcName, srcNumber, tgtName, tgtNumber);
    InputConnection(address, c.delivery, OrderOf(c.ordered), address)
  }

  /** Target instance `inst` of component `tgtName` after the input connection
      from source instance `srcNumber` is added on its find-or-create port. */
  function LinkedInstance(network: string, c: ConnectionConfig, srcName: string, srcNumber: nat, tgtName: string, inst: InstanceContext): InstanceContext
  {
    var portAddress := InputPortAddress(c.target.port, network, tgtName, inst.number);
    inst.(inputs := Attach(inst.inputs, c.target.port, portAddress, [InputLink(c, network, srcName, srcNumber, tgtName, inst.number)]))
  }

  /** Inner loop body: wire target instance `j` (index). */
  function LinkTarget(network: string, comps: Components, c: ConnectionConfig, srcName: string, srcNumber: nat, j: nat): (r: Components)
    requires c.target.component in comps && j < |comps[c.target.component].instances|
    ensures c.target.component in r && r == comps[c.target.component := r[c.target.component]]
    ensures |r[c.target.component].instances| == |comps[c.target.component].instances|
  {
    var t := c.target.component;
    WithInstance(comps, t, j, LinkedInstance(network, c, srcName, srcNumber, comps[t].name, comps[t].instances[j]))
  }

  /** The inner loop after its first `k` target instances: the components and
      the output connection's target list so far. */
  function LinkTargets(network: string, comps: Components, c: ConnectionConfig, srcName: string, srcNumber: nat, k: nat): (r: (Components, seq<string>))
    requires c.target.component in comps && k <= |comps[c.target.component].instances|
    ensures c.target.component in r.0 && r.0 == comps[c.target.component := r.0[c.target.component]]
    ensures |r.0[c.target.component].instances| == |comps[c.target.component].instances|
    ensures |r.1| == k
  {
    if k == 0 then (comps, [])
    else
      var (prev, targets) := LinkTargets(network, comps, c, srcName, srcNumber, k - 1);
      var t := c.target.component;
      var address := InputConnectionAddress(c, network, srcName, srcNumber, prev[t].name, prev[t].instances[k - 1].number);
      (LinkTarget(network, prev, c, srcName, srcNumber, k - 1), targets + [address])
  }

  /** Outer loop body for source instance `i` (index): find-or-create the
      output port, wire every target instance, then add the output connection. */
  function LinkSource(network: string, comps: Components, c: ConnectionConfig, i: nat): (r: Components)
    requires c.source.component in comps && c.target.component in comps
    requires i < |comps[c.source.component].instances|
    ensures c.source.component in r && c.target.component in r
    ensures |r[c.source.component].instances| == |comps[c.source.component].instances|
  {
    var s, t := c.source.component, c.target.component;
    var si := comps[s].instances[i];
    var (outs, p) := EnsurePort(si.outputs, c.source.port, OutputPortAddress(c.source.port, network, comps[s].name, si.number));
    var comps1 := WithInstance(comps, s, i, si.(outputs := outs));
    var (comps2, targets) := LinkTargets(network, comps1, c, comps[s].name, si.number, |comps1[t].instances|);
    var conn := OutputConnection(
      OutputConnectionAddress(c, network, comps[s].name, si.number, comps[t].name),
      c.delivery, OrderOf(c.ordered), c.grouping, targets);
    var si2 := comps2[s].instances[i];
    WithInstance(comps2, s, i, si2.(outputs := outs[p := outs[p].(connections := outs[p].connections + [conn])]))
  }

  /** The source-instance loop from source instance `i` (index) on. */
  function ConnectFrom(network: string, comps: Components, c: ConnectionConfig, i: nat): (r: Components)
    requires c.source.component in comps && c.target.component in comps
    requires i <= |comps[c.source.component].instances|
    decreases |comps[c.source.component].instances| - i
  {
    if i == |comps[c.source.component].instances| then comps
    else ConnectFrom(network, LinkSource(network, comps, c, i), c, i + 1)
  }

  /** One connection config; a config whose source or target component is not
      in the network changes nothing. */
  function Connect(network: string, comps: Components, c: ConnectionConfig): (r: Components)
    ensures c.source.component !in comps || c.target.component !in comps ==> r == comps
  {
    if c.source.component in comps && c.target.component in comps
    then ConnectFrom(network, comps, c, 0)
    else comps
  }

  /** The connection loop after the connection configs `cs`. */
  function ConnectAll(network: string, comps: Components, cs: seq<ConnectionConfig>): Components
  {
    if cs == [] then comps
    else Connect(network, ConnectAll(network, comps, cs[..|cs| - 1]), cs[|cs| - 1])
  }

  /** What `buildContext` computes, as a function of the configuration. */
  function Compile(network: NetworkConfig): Components
  {
    ConnectAll(network.name, ComponentMap(network.name, network.components), network.connections)
  }

  // ---------------------------------------------------------------------------
  // The builder itself.

  /** The port lookup loop (stops at the first port with the name). */
  method FindPort<C>(ports: seq<Port<C>>, name: string) returns (r: Option<nat>)
    ensures r == FirstPortNamed(ports, name)
  {
    var k := 0;
    while k < |ports|
      invariant 0 <= k <= |ports|
      invariant forall l :: 0 <= l < k ==> ports[l].name != name
    {
      if ports[k].name == name {
        r := Some(k);
        FirstPortUnique(ports, name, k);
        return;
      }
      k := k + 1;
    }
    r := None;
  }

  lemma FirstPortUnique<C>(ports: seq<Port<C>>, name: string, k: nat)
    requires k < |ports| && ports[k].name == name
    requires forall l :: 0 <= l < k ==> ports[l].name != name
    ensures FirstPortNamed(ports, name) == Some(k)
  {
  }

  /** The instance loop of one component. */
  method BuildComponent(network: string, c: ComponentConfig) returns (ctx: ComponentContext)
    ensures ctx == ComponentContextFor(network, c)
  {
    var address := ComponentAddress(network, c.name);
    var instances: seq<InstanceContext> := [];
    var i := 1;
    while i <= c.instances
      invariant 1 <= i <= (if c.instances < 0 then 0 else c.instances) + 1
      invariant |instances| == i - 1
      invariant forall k :: 0 <= k < |instances| ==> instances[k] == NewInstance(address, k + 1, c.kind.VerticleKind?)
    {
      var statusAddress := if c.kind.VerticleKind? then Some(InstanceAddress(address, i) + STATUS_SUFFIX) else None;
      instances := instances + [InstanceContext(InstanceAddress(address, i), statusAddress, i, [], [])];
      i := i + 1;
    }
    ctx := ComponentContext(c.name, address, StatusAddressOf(address), c.kind, c.config, c.hooks, c.group,
      c.storageType, c.storageConfig, instances);
    ghost var expected := ComponentContextFor(network, c);
    assert |instances| == |expected.instances|;
    assert forall k :: 0 <= k < |instances| ==> instances[k] == expected.instances[k];
  }

  /** The inner loop: wire every target instance from one source instance, and
      collect the target list. */
  method LinkAllTargets(network: string, comps: Components, c: ConnectionConfig, srcName: string, srcNumber: nat)
    returns (r: Components, targets: seq<string>)
    requires c.target.component in comps
    ensures (r, targets) == LinkTargets(network, comps, c, srcName, srcNumber, |comps[c.target.component].instances|)
  {
    var t := c.target.component;
    var count := |comps[t].instances|;
    r, targets := comps, [];
    var j := 0;
    while j < count
      invariant 0 <= j <= count
      invariant (r, targets) == LinkTargets(network, comps, c, srcName, srcNumber, j)
    {
      var target := r[t];
      var targetInstance := target.instances[j];
      var p := FindPort(targetInstance.inputs, c.target.port);
      var inputs := targetInstance.inputs;
      if p.None? {
        inputs := inputs + [Port(c.target.port, InputPortAddress(c.target.port, network, target.name, targetInstance.number), [])];
        p := Some(|targetInstance.inputs|);
      }
      var address := InputConnectionAddress(c, network, srcName, srcNumber, target.name, targetInstance.number);
      var link := InputConnection(address, c.delivery, OrderOf(c.ordered), address);
      targets := targets + [address];
      inputs := inputs[p.value := inputs[p.value].(connections := inputs[p.value].connections + [link])];
      r := WithInstance(r, t, j, targetInstance.(inputs := inputs));
      j := j + 1;
    }
  }

  /** One source instance: find-or-create its output port, wire the targets,
      add the output connection. */
  method LinkSourceInstance(network: string, comps: Components, c: ConnectionConfig, i: nat) returns (r: Components)
    requires c.source.component in comps && c.target.component in comps
    requires i < |comps[c.source.component].instances|
    ensures r == LinkSource(network, comps, c, i)
  {
    var s, t := c.source.component, c.target.component;
    var source, target := comps[s], comps[t];
    var sourceInstance := source.instances[i];
    var p := FindPort(sourceInstance.outputs, c.source.port);
    var outputs := sourceInstance.outputs;
    if p.None? {
      outputs := outputs + [Port(c.source.port, OutputPortAddress(c.source.port, network, source.name, sourceInstance.number), [])];
      p := Some(|sourceInstance.outputs|);
    }
    r := WithInstance(comps, s, i, sourceInstance.(outputs := outputs));
    var address := OutputConnectionAddress(c, network, source.name, sourceInstance.number, target.name);
    var targets;
    r, targets := LinkAllTargets(network, r, c, source.name, sourceInstance.number);
    var conn := OutputConnection(address, c.delivery, OrderOf(c.ordered), c.grouping, targets);
    var updated := r[s].instances[i];
    r := WithInstance(r, s, i, updated.(outputs := outputs[p.value := outputs[p.value].(connections := outputs[p.value].connections + [conn])]));
  }

  /** The source-instance loop of one connection config. */
  method LinkAllSources(network: string, comps: Components, c: ConnectionConfig) returns (r: Components)
    requires c.source.component in comps && c.target.component in comps
    ensures r == ConnectFrom(network, comps, c, 0)
  {
    r := comps;
    var count := |comps[c.source.component].instances|;
    var i := 0;
    while i < count
      invariant 0 <= i <= count
      invariant c.source.component in r && c.target.component in r && |r[c.source.component].instances| == count
      invariant ConnectFrom(network, r, c, i) == ConnectFrom(network, comps, c, 0)
    {
      r := LinkSourceInstance(network, r, c, i);
      i := i + 1;
    }
  }

  /** The wiring of one connection config: skipped unless both of its
      components are in the network. */
  method ApplyConnection(network: string, comps: Components, c: ConnectionConfig) returns (r: Components)
    ensures r == Connect(network, comps, c)
  {
    r := comps;
    if c.source.component in comps && c.target.component in comps {
      r := LinkAllSources(network, comps, c);
    }
  }

  /** `ContextBuilder.buildContext`. */
  method BuildContext(network: NetworkConfig) returns (ctx: NetworkContext)
    ensures ctx.name == network.name && ctx.address == network.name && ctx.config == network
    ensures ctx.statusAddress == network.name + ".__status"
    ensures ctx.components == Compile(network)
  {
    var components: Components := map[];
    var n := 0;
    while n < |network.components|
      invariant 0 <= n <= |network.components|
      invariant components == ComponentMap(network.name, network.components[..n])
    {
      var component := BuildComponent(network.name, network.components[n]);
      components := components[network.components[n].name := component];
      assert network.components[..n + 1][..n] == network.components[..n];
      n := n + 1;
    }
    assert network.components[..n] == network.components;
    ghost var initial := components;
    n := 0;
    while n < |network.connections|
      invariant 0 <= n <= |network.connections|
      invariant components == ConnectAll(network.name, initial, network.connections[..n])
    {
      components := ApplyConnection(network.name, components, network.connections[n]);
      assert network.connections[..n + 1][..n] == network.connections[..n];
      n := n + 1;
    }
    assert network.connections[..n] == network.connections;
    ctx := NetworkContext(network.name, network.name, StatusAddressOf(network.name), network, components);
  }
}
