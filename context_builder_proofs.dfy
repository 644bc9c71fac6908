/** Closed forms and linking invariants of the port-to-port compiler: what one
    connection config does to every instance, proved by induction over the two
    wiring loops, and what follows from it (one output connection per source
    instance, one input connection per source/target pair, targets and input
    connections matching one to one, the frame of names and addresses). */
module ContextBuilderProofs {
  import opened Common
  import opened ContextBuilder

  // ---------------------------------------------------------------------------
  // Ports.

  /** The connections of the first port called `name`, none if there is none. */
  function PortConnections<C>(ports: seq<Port<C>>, name: string): seq<C>
  {
    match FirstPortNamed(ports, name)
    case Some(p) => ports[p].connections
    case None => []
  }

  /** Only the port names matter to the lookup. */
  lemma {:induction false} FirstPortNamedByNames<C>(a: seq<Port<C>>, b: seq<Port<C>>, name: string)
    requires |a| == |b|
    requires forall k :: 0 <= k < |a| ==> a[k].name == b[k].name
    ensures FirstPortNamed(a, name) == FirstPortNamed(b, name)
    decreases |a|
  {
    if a != [] && a[0].name != name {
      FirstPortNamedByNames(a[1..], b[1..], name);
    }
  }

  /** Find-or-create: after `Attach` with something to append, the port called
      `name` exists, holds what it held before (nothing if it was created)
      followed by `conns`, and keeps its address if it already existed. */
  lemma AttachFindOrCreate<C>(ports: seq<Port<C>>, name: string, address: string, conns: seq<C>)
    requires conns != []
    ensures var r := Attach(ports, name, address, conns);
      && FirstPortNamed(r, name).Some?
      && PortConnections(r, name) == PortConnections(ports, name) + conns
      && r[FirstPortNamed(r, name).value].address ==
           (if FirstPortNamed(ports, name).Some? then ports[FirstPortNamed(ports, name).value].address else address)
      && |r| == |ports| + (if FirstPortNamed(ports, name).Some? then 0 else 1)
  {
    var r := Attach(ports, name, address, conns);
    var (ps, p) := EnsurePort(ports, name, address);
    assert r == ps[p := ps[p].(connections := ps[p].connections + conns)];
    FirstPortNamedByNames(ps, r, name);
  }

  /** Appending twice to the same port is appending the concatenation. */
  lemma AttachTwice<C>(ports: seq<Port<C>>, name: string, address: string, xs: seq<C>, ys: seq<C>)
    ensures Attach(Attach(ports, name, address, xs), name, address, ys) == Attach(ports, name, address, xs + ys)
  {
    if xs == [] {
      assert xs + ys == ys;
    } else if ys == [] {
      assert xs + ys == xs;
    } else {
      var (ps, p) := EnsurePort(ports, name, address);
      var once := ps[p := ps[p].(connections := ps[p].connections + xs)];
      assert Attach(ports, name, address, xs) == once;
      FirstPortNamedByNames(ps, once, name);
      assert EnsurePort(once, name, address) == (once, p);
      assert ps[p].connections + xs + ys == ps[p].connections + (xs + ys);
    }
  }

  // ---------------------------------------------------------------------------
  // The frame: what wiring never changes.

  function Unwired(inst: InstanceContext): InstanceContext
  {
    inst.(inputs := [], outputs := [])
  }

  /** Same components, same fields, same instances, up to their ports. */
  ghost predicate SameFrame(a: Components, b: Components)
  {
    && a.Keys == b.Keys
    && (forall n :: n in a ==> a[n].(instances := []) == b[n].(instances := []) && |a[n].instances| == |b[n].instances|)
    && (forall n, x :: n in a && 0 <= x < |a[n].instances| ==> Unwired(a[n].instances[x]) == Unwired(b[n].instances[x]))
  }

  lemma SameFrameTrans(a: Components, b: Components, d: Components)
    requires SameFrame(a, b) && SameFrame(b, d)
    ensures SameFrame(a, d)
  {
  }

  /** What the address formats read from a component: its name and the
      numbers of its instances. */
  ghost predicate SameNaming(a: ComponentContext, b: ComponentContext)
  {
    a.name == b.name && |a.instances| == |b.instances|
    && forall x :: 0 <= x < |a.instances| ==> a.instances[x].number == b.instances[x].number
  }

  lemma FrameNaming(a: Components, b: Components, n: string)
    requires SameFrame(a, b) && n in a
    ensures SameNaming(a[n], b[n])
  {
    assert a[n].(instances := []).name == b[n].(instances := []).name;
    forall x | 0 <= x < |a[n].instances|
      ensures a[n].instances[x].number == b[n].instances[x].number
    {
      assert Unwired(a[n].instances[x]).number == Unwired(b[n].instances[x]).number;
    }
  }

  // ---------------------------------------------------------------------------
  // What one connection config adds.

  /** The output connection source instance `x` gets: one target per target
      instance, in target-instance order. */
  function OutConn(network: string, c: ConnectionConfig, src: ComponentContext, x: nat, tgt: ComponentContext): (r: OutputConnection)
    requires x < |src.instances|
    ensures |r.targets| == |tgt.instances|
  {
    OutputConnection(
      OutputConnectionAddress(c, network, src.name, src.instances[x].number, tgt.name),
      c.delivery, OrderOf(c.ordered), c.grouping,
      seq(|tgt.instances|, j requires 0 <= j < |tgt.instances| =>
        InputConnectionAddress(c, network, src.name, src.instances[x].number, tgt.name, tgt.instances[j].number)))
  }

  /** The input connections target instance `y` gets from source instances
      `from` to `to - 1`, in source-instance order. */
  function InLinks(network: string, c: ConnectionConfig, src: ComponentContext, from: nat, to: nat, tgt: ComponentContext, y: nat): (r: seq<InputConnection>)
    requires from <= to <= |src.instances| && y < |tgt.instances|
    ensures |r| == to - from
  {
    seq(to - from, k requires 0 <= k < to - from =>
      InputLink(c, network, src.name, src.instances[from + k].number, tgt.name, tgt.instances[y].number))
  }

  lemma OutConnNaming(network: string, c: ConnectionConfig, src: ComponentContext, src': ComponentContext, x: nat, tgt: ComponentContext, tgt': ComponentContext)
    requires SameNaming(src, src') && SameNaming(tgt, tgt') && x < |src.instances|
    ensures OutConn(network, c, src, x, tgt) == OutConn(network, c, src', x, tgt')
  {
  }

  lemma InLinksNaming(network: string, c: ConnectionConfig, src: ComponentContext, src': ComponentContext, from: nat, to: nat, tgt: ComponentContext, tgt': ComponentContext, y: nat)
    requires SameNaming(src, src') && SameNaming(tgt, tgt')
    requires from <= to <= |src.instances| && y < |tgt.instances|
    ensures InLinks(network, c, src, from, to, tgt, y) == InLinks(network, c, src', from, to, tgt', y)
  {
  }

  lemma InLinksSplit(network: string, c: ConnectionConfig, src: ComponentContext, a: nat, b: nat, d: nat, tgt: ComponentContext, y: nat)
    requires a <= b <= d <= |src.instances| && y < |tgt.instances|
    ensures InLinks(network, c, src, a, b, tgt, y) + InLinks(network, c, src, b, d, tgt, y) == InLinks(network, c, src, a, d, tgt, y)
  {
  }

  function OutputPortOf(network: string, c: ConnectionConfig, src: ComponentContext, x: nat): string
    requires x < |src.instances|
  {
    OutputPortAddress(c.source.port, network, src.name, src.instances[x].number)
  }

  function InputPortOf(network: string, c: ConnectionConfig, tgt: ComponentContext, y: nat): string
    requires y < |tgt.instances|
  {
    InputPortAddress(c.target.port, network, tgt.name, tgt.instances[y].number)
  }

  // ---------------------------------------------------------------------------
  // The inner loop.

  /** The target instances after the first `k` of them are wired. */
  function LinkedUpTo(network: string, c: ConnectionConfig, srcName: string, srcNumber: nat, tgt: ComponentContext, k: nat): (r: seq<InstanceContext>)
    requires k <= |tgt.instances|
    ensures |r| == |tgt.instances|
  {
    seq(|tgt.instances|, y requires 0 <= y < |tgt.instances| =>
      if y < k then LinkedInstance(network, c, srcName, srcNumber, tgt.name, tgt.instances[y]) else tgt.instances[y])
  }

  lemma LinkedUpToStep(network: string, c: ConnectionConfig, srcName: string, srcNumber: nat, tgt: ComponentContext, k: nat)
    requires k < |tgt.instances|
    ensures LinkedUpTo(network, c, srcName, srcNumber, tgt, k)[k := LinkedInstance(network, c, srcName, srcNumber, tgt.name, tgt.instances[k])]
         == LinkedUpTo(network, c, srcName, srcNumber, tgt, k + 1)
  {
  }

  /** The inner loop after `k` target instances: the target component's first
      `k` instances each gained one input connection, and nothing else changed. */
  lemma {:induction false} LinkTargetsClosedForm(network: string, comps: Components, c: ConnectionConfig, srcName: string, srcNumber: nat, k: nat)
    requires c.target.component in comps && k <= |comps[c.target.component].instances|
    ensures var t := c.target.component;
      LinkTargets(network, comps, c, srcName, srcNumber, k).0
        == comps[t := comps[t].(instances := LinkedUpTo(network, c, srcName, srcNumber, comps[t], k))]
    decreases k
  {
    var t := c.target.component;
    if k > 0 {
      LinkTargetsClosedForm(network, comps, c, srcName, srcNumber, k - 1);
      LinkTargetStep(network, comps, c, srcName, srcNumber, k - 1, LinkTargets(network, comps, c, srcName, srcNumber, k - 1).0);
    } else {
      assert LinkedUpTo(network, c, srcName, srcNumber, comps[t], 0) == comps[t].instances;
    }
  }

  lemma LinkTargetStep(network: string, comps: Components, c: ConnectionConfig, srcName: string, srcNumber: nat, j: nat, prev: Components)
    requires c.target.component in comps && j < |comps[c.target.component].instances|
    requires var t := c.target.component;
      prev == comps[t := comps[t].(instances := LinkedUpTo(network, c, srcName, srcNumber, comps[t], j))]
    ensures var t := c.target.component;
      LinkTarget(network, prev, c, srcName, srcNumber, j)
        == comps[t := comps[t].(instances := LinkedUpTo(network, c, srcName, srcNumber, comps[t], j + 1))]
  {
    var t := c.target.component;
    var before := LinkedUpTo(network, c, srcName, srcNumber, comps[t], j);
    var linked := LinkedInstance(network, c, srcName, srcNumber, comps[t].name, comps[t].instances[j]);
    assert prev[t].instances[j] == comps[t].instances[j];
    assert LinkTarget(network, prev, c, srcName, srcNumber, j) == prev[t := prev[t].(instances := before[j := linked])];
    LinkedUpToStep(network, c, srcName, srcNumber, comps[t], j);
  }

  /** The target list after `k` target instances names their input connections
      in target-instance order. */
  lemma {:induction false} LinkTargetsList(network: string, comps: Components, c: ConnectionConfig, srcName: string, srcNumber: nat, k: nat)
    requires c.target.component in comps && k <= |comps[c.target.component].instances|
    ensures var tgt := comps[c.target.component];
      LinkTargets(network, comps, c, srcName, srcNumber, k).1
        == seq(k, j requires 0 <= j < k => InputConnectionAddress(c, network, srcName, srcNumber, tgt.name, tgt.instances[j].number))
    decreases k
  {
    if k > 0 {
      var (prev, targets) := LinkTargets(network, comps, c, srcName, srcNumber, k - 1);
      LinkTargetsClosedForm(network, comps, c, srcName, srcNumber, k - 1);
      LinkTargetsList(network, comps, c, srcName, srcNumber, k - 1);
      var t := c.target.component;
      assert prev[t].name == comps[t].name && prev[t].instances[k - 1].number == comps[t].instances[k - 1].number;
      AddressListSnoc(network, c, srcName, srcNumber, comps[t], k - 1);
    }
  }

  lemma AddressListSnoc(network: string, c: ConnectionConfig, srcName: string, srcNumber: nat, tgt: ComponentContext, k: nat)
    requires k < |tgt.instances|
    ensures seq(k + 1, j requires 0 <= j < k + 1 => InputConnectionAddress(c, network, srcName, srcNumber, tgt.name, tgt.instances[j].number))
         == seq(k, j requires 0 <= j < k => InputConnectionAddress(c, network, srcName, srcNumber, tgt.name, tgt.instances[j].number))
            + [InputConnectionAddress(c, network, srcName, srcNumber, tgt.name, tgt.instances[k].number)]
  {
  }

  // ---------------------------------------------------------------------------
  // The source-instance loop.

  /** The output ports of instance `x` of component `n` once source instances
      `from` to `to - 1` are wired: one more output connection if it is one of
      them. */
  function WiredOutputs(network: string, c: ConnectionConfig, comps: Components, from: nat, to: nat, n: string, x: nat): seq<OutputPort>
    requires c.source.component in comps && c.target.component in comps
    requires from <= to <= |comps[c.source.component].instances|
    requires n in comps && x < |comps[n].instances|
  {
    var s, t := c.source.component, c.target.component;
    if n == s && from <= x < to
    then Attach(comps[n].instances[x].outputs, c.source.port, OutputPortOf(network, c, comps[s], x), [OutConn(network, c, comps[s], x, comps[t])])
    else comps[n].instances[x].outputs
  }

  /** The input ports of instance `x` of component `n` once source instances
      `from` to `to - 1` are wired: one more input connection from each of them
      if it is a target instance. */
  function WiredInputs(network: string, c: ConnectionConfig, comps: Components, from: nat, to: nat, n: string, x: nat): seq<InputPort>
    requires c.source.component in comps && c.target.component in comps
    requires from <= to <= |comps[c.source.component].instances|
    requires n in comps && x < |comps[n].instances|
  {
    var s, t := c.source.component, c.target.component;
    if n == t
    then Attach(comps[n].instances[x].inputs, c.target.port, InputPortOf(network, c, comps[t], x), InLinks(network, c, comps[s], from, to, comps[t], x))
    else comps[n].instances[x].inputs
  }

  /** `r` is `comps` with source instances `from` to `to - 1` wired, and
      nothing else changed. */
  ghost predicate Wired(network: string, c: ConnectionConfig, comps: Components, from: nat, to: nat, r: Components)
    requires c.source.component in comps && c.target.component in comps
    requires from <= to <= |comps[c.source.component].instances|
  {
    && SameFrame(comps, r)
    && (forall n, x :: n in comps && 0 <= x < |comps[n].instances| ==>
         && r[n].instances[x].outputs == WiredOutputs(network, c, comps, from, to, n, x)
         && r[n].instances[x].inputs == WiredInputs(network, c, comps, from, to, n, x))
  }

  lemma WiredNothing(network: string, c: ConnectionConfig, comps: Components, i: nat)
    requires c.source.component in comps && c.target.component in comps
    requires i <= |comps[c.source.component].instances|
    ensures Wired(network, c, comps, i, i, comps)
  {
  }

  /** Wiring `from..mid` and then `mid..to` is wiring `from..to`. */
  lemma WiredCompose(network: string, c: ConnectionConfig, comps: Components, from: nat, mid: nat, to: nat, r1: Components, r2: Components)
    requires c.source.component in comps && c.target.component in comps
    requires from <= mid <= to <= |comps[c.source.component].instances|
    requires Wired(network, c, comps, from, mid, r1)
    requires c.source.component in r1 && c.target.component in r1
    requires Wired(network, c, r1, mid, to, r2)
    ensures Wired(network, c, comps, from, to, r2)
  {
    var s, t := c.source.component, c.target.component;
    SameFrameTrans(comps, r1, r2);
    FrameNaming(comps, r1, s);
    FrameNaming(comps, r1, t);
    forall n, x | n in comps && 0 <= x < |comps[n].instances|
      ensures r2[n].instances[x].outputs == WiredOutputs(network, c, comps, from, to, n, x)
      ensures r2[n].instances[x].inputs == WiredInputs(network, c, comps, from, to, n, x)
    {
      assert n in r1 && x < |r1[n].instances|;
      assert r1[n].instances[x].outputs == WiredOutputs(network, c, comps, from, mid, n, x);
      assert r1[n].instances[x].inputs == WiredInputs(network, c, comps, from, mid, n, x);
      assert r2[n].instances[x].outputs == WiredOutputs(network, c, r1, mid, to, n, x);
      assert r2[n].instances[x].inputs == WiredInputs(network, c, r1, mid, to, n, x);
      if n == s && mid <= x < to {
        OutConnNaming(network, c, comps[s], r1[s], x, comps[t], r1[t]);
      }
      if n == t {
        InLinksNaming(network, c, comps[s], r1[s], mid, to, comps[t], r1[t], x);
        AttachTwice(comps[n].instances[x].inputs, c.target.port, InputPortOf(network, c, comps[t], x),
          InLinks(network, c, comps[s], from, mid, comps[t], x), InLinks(network, c, comps[s], mid, to, comps[t], x));
        InLinksSplit(network, c, comps[s], from, mid, to, comps[t], x);
      }
    }
  }

  /** The output connection `LinkSource` builds is `OutConn`. */
  lemma LinkSourceConnection(network: string, comps: Components, c: ConnectionConfig, i: nat, comps1: Components)
    requires c.source.component in comps && c.target.component in comps
    requires i < |comps[c.source.component].instances|
    requires c.target.component in comps1 && SameNaming(comps[c.target.component], comps1[c.target.component])
    ensures var s, t := c.source.component, c.target.component;
      OutputConnection(
        OutputConnectionAddress(c, network, comps[s].name, comps[s].instances[i].number, comps[t].name),
        c.delivery, OrderOf(c.ordered), c.grouping,
        LinkTargets(network, comps1, c, comps[s].name, comps[s].instances[i].number, |comps1[t].instances|).1)
      == OutConn(network, c, comps[s], i, comps[t])
  {
    var s, t := c.source.component, c.target.component;
    LinkTargetsList(network, comps1, c, comps[s].name, comps[s].instances[i].number, |comps1[t].instances|);
  }

  /** `LinkSource` with the inner loop replaced by its closed form. */
  function LinkSourceResult(network: string, comps: Components, c: ConnectionConfig, i: nat): Components
    requires c.source.component in comps && c.target.component in comps
    requires i < |comps[c.source.component].instances|
  {
    var s, t := c.source.component, c.target.component;
    var si := comps[s].instances[i];
    var outs := EnsurePort(si.outputs, c.source.port, OutputPortOf(network, c, comps[s], i)).0;
    var comps1 := WithInstance(comps, s, i, si.(outputs := outs));
    var comps2 := comps1[t := comps1[t].(instances := LinkedUpTo(network, c, comps[s].name, si.number, comps1[t], |comps1[t].instances|))];
    var conn := OutConn(network, c, comps[s], i, comps[t]);
    WithInstance(comps2, s, i, comps2[s].instances[i].(outputs := Attach(si.outputs, c.source.port, OutputPortOf(network, c, comps[s], i), [conn])))
  }

  lemma LinkSourceExplicit(network: string, comps: Components, c: ConnectionConfig, i: nat)
    requires c.source.component in comps && c.target.component in comps
    requires i < |comps[c.source.component].instances|
    ensures LinkSource(network, comps, c, i) == LinkSourceResult(network, comps, c, i)
  {
    var s, t := c.source.component, c.target.component;
    var si := comps[s].instances[i];
    var (outs, p) := EnsurePort(si.outputs, c.source.port, OutputPortOf(network, c, comps[s], i));
    var comps1 := WithInstance(comps, s, i, si.(outputs := outs));
    LinkTargetsClosedForm(network, comps1, c, comps[s].name, si.number, |comps1[t].instances|);
    assert SameNaming(comps[t], comps1[t]);
    LinkSourceConnection(network, comps, c, i, comps1);
  }

  /** One pass of the source-instance loop wires exactly source instance `i`. */
  lemma LinkSourceClosedForm(network: string, comps: Components, c: ConnectionConfig, i: nat)
    requires c.source.component in comps && c.target.component in comps
    requires i < |comps[c.source.component].instances|
    ensures Wired(network, c, comps, i, i + 1, LinkSource(network, comps, c, i))
  {
    var s, t := c.source.component, c.target.component;
    LinkSourceExplicit(network, comps, c, i);
    var r := LinkSourceResult(network, comps, c, i);
    LinkSourceKeys(network, comps, c, i);
    forall n | n in comps
      ensures comps[n].(instances := []) == r[n].(instances := []) && |comps[n].instances| == |r[n].instances|
    {
      LinkSourceComponent(network, comps, c, i, n);
    }
    forall n, x | n in comps && 0 <= x < |comps[n].instances|
      ensures r[n].instances[x].outputs == WiredOutputs(network, c, comps, i, i + 1, n, x)
      ensures r[n].instances[x].inputs == WiredInputs(network, c, comps, i, i + 1, n, x)
      ensures Unwired(r[n].instances[x]) == Unwired(comps[n].instances[x])
    {
      LinkSourcePoint(network, comps, c, i, n, x);
    }
  }

  lemma LinkSourceKeys(network: string, comps: Components, c: ConnectionConfig, i: nat)
    requires c.source.component in comps && c.target.component in comps
    requires i < |comps[c.source.component].instances|
    ensures LinkSourceResult(network, comps, c, i).Keys == comps.Keys
  {
  }

  lemma LinkSourceComponent(network: string, comps: Components, c: ConnectionConfig, i: nat, n: string)
    requires c.source.component in comps && c.target.component in comps
    requires i < |comps[c.source.component].instances|
    requires n in comps
    ensures var r := LinkSourceResult(network, comps, c, i);
      n in r && comps[n].(instances := []) == r[n].(instances := []) && |comps[n].instances| == |r[n].instances|
  {
  }

  lemma LinkSourcePoint(network: string, comps: Components, c: ConnectionConfig, i: nat, n: string, x: nat)
    requires c.source.component in comps && c.target.component in comps
    requires i < |comps[c.source.component].instances|
    requires n in comps && x < |comps[n].instances|
    ensures var r := LinkSourceResult(network, comps, c, i);
      && n in r && x < |r[n].instances|
      && r[n].instances[x].outputs == WiredOutputs(network, c, comps, i, i + 1, n, x)
      && r[n].instances[x].inputs == WiredInputs(network, c, comps, i, i + 1, n, x)
      && Unwired(r[n].instances[x]) == Unwired(comps[n].instances[x])
  {
    var s, t := c.source.component, c.target.component;
    var inst := comps[n].instances[x];
    if n == t {
      assert InLinks(network, c, comps[s], i, i + 1, comps[t], x)
          == [InputLink(c, network, comps[s].name, comps[s].instances[i].number, comps[t].name, inst.number)];
    }
  }

  /** The source-instance loop from instance `i` on wires exactly source
      instances `i` to the last one. */
  lemma {:induction false} ConnectFromClosedForm(network: string, comps: Components, c: ConnectionConfig, i: nat)
    requires c.source.component in comps && c.target.component in comps
    requires i <= |comps[c.source.component].instances|
    ensures Wired(network, c, comps, i, |comps[c.source.component].instances|, ConnectFrom(network, comps, c, i))
    decreases |comps[c.source.component].instances| - i
  {
    var count := |comps[c.source.component].instances|;
    if i == count {
      WiredNothing(network, c, comps, i);
    } else {
      var next := LinkSource(network, comps, c, i);
      var r := ConnectFrom(network, next, c, i + 1);
      assert ConnectFrom(network, comps, c, i) == r;
      ConnectFromClosedForm(network, next, c, i + 1);
      WiredAfterLinkSource(network, comps, c, i, r);
    }
  }

  lemma WiredAfterLinkSource(network: string, comps: Components, c: ConnectionConfig, i: nat, r: Components)
    requires c.source.component in comps && c.target.component in comps
    requires i < |comps[c.source.component].instances|
    requires var next := LinkSource(network, comps, c, i);
      Wired(network, c, next, i + 1, |next[c.source.component].instances|, r)
    ensures Wired(network, c, comps, i, |comps[c.source.component].instances|, r)
  {
    LinkSourceClosedForm(network, comps, c, i);
    WiredCompose(network, c, comps, i, i + 1, |comps[c.source.component].instances|, LinkSource(network, comps, c, i), r);
  }

  /** What one connection config does: if both of its components exist, every
      source instance gains one output connection and every target instance
      one input connection per source instance; nothing else changes. */
  lemma ConnectClosedForm(network: string, comps: Components, c: ConnectionConfig)
    requires c.source.component in comps && c.target.component in comps
    ensures Wired(network, c, comps, 0, |comps[c.source.component].instances|, Connect(network, comps, c))
  {
    ConnectFromClosedForm(network, comps, c, 0);
  }

  // ---------------------------------------------------------------------------
  // Consequences for one connection config.

  /** The closed form, read at instance `x` of component `n`. */
  lemma ConnectAt(network: string, comps: Components, c: ConnectionConfig, n: string, x: nat)
    requires c.source.component in comps && c.target.component in comps
    requires n in comps && x < |comps[n].instances|
    ensures var r := Connect(network, comps, c);
      && n in r && |r[n].instances| == |comps[n].instances|
      && r[n].(instances := []) == comps[n].(instances := [])
      && r[n].instances[x].outputs == WiredOutputs(network, c, comps, 0, |comps[c.source.component].instances|, n, x)
      && r[n].instances[x].inputs == WiredInputs(network, c, comps, 0, |comps[c.source.component].instances|, n, x)
      && Unwired(r[n].instances[x]) == Unwired(comps[n].instances[x])
  {
    ConnectClosedForm(network, comps, c);
  }

  /** Each source instance gains exactly one output connection, on the output
      port named by the config (found, or created with address
      `out:<port>@<net>.<comp>[<n>]`), and its targets are the input
      connection addresses of the target instances, in order. Output ports
      with other names are untouched. */
  lemma ConnectOutputs(network: string, comps: Components, c: ConnectionConfig, x: nat)
    requires c.source.component in comps && c.target.component in comps
    requires x < |comps[c.source.component].instances|
    ensures c.source.component in Connect(network, comps, c)
    ensures |Connect(network, comps, c)[c.source.component].instances| == |comps[c.source.component].instances|
    ensures var s, t := c.source.component, c.target.component;
      var before := comps[s].instances[x].outputs;
      var after := Connect(network, comps, c)[s].instances[x].outputs;
      var conn := OutConn(network, c, comps[s], x, comps[t]);
      && FirstPortNamed(after, c.source.port).Some?
      && PortConnections(after, c.source.port) == PortConnections(before, c.source.port) + [conn]
      && after[FirstPortNamed(after, c.source.port).value].address ==
           (if FirstPortNamed(before, c.source.port).Some? then before[FirstPortNamed(before, c.source.port).value].address
            else "out:" + c.source.port + "@" + network + "." + comps[s].name + "[" + NatToString(comps[s].instances[x].number) + "]")
      && |after| == |before| + (if FirstPortNamed(before, c.source.port).Some? then 0 else 1)
      && (forall k :: 0 <= k < |before| && before[k].name != c.source.port ==> after[k] == before[k])
      && conn.delivery == c.delivery && conn.order == OrderOf(c.ordered) && conn.grouping == c.grouping
      && |conn.targets| == |comps[t].instances|
      && (forall j :: 0 <= j < |comps[t].instances| ==>
            conn.targets[j] == InputConnectionAddress(c, network, comps[s].name, comps[s].instances[x].number, comps[t].name, comps[t].instances[j].number))
  {
    var s, t := c.source.component, c.target.component;
    ConnectAt(network, comps, c, s, x);
    AttachFindOrCreate(comps[s].instances[x].outputs, c.source.port, OutputPortOf(network, c, comps[s], x), [OutConn(network, c, comps[s], x, comps[t])]);
  }

  /** Each target instance gains, on the input port named by the config, one
      input connection per source instance, in source-instance order; each
      carries the config's delivery and order, has its own address as its
      source, and is the target that source instance's output connection
      lists for this target instance. */
  lemma ConnectInputs(network: string, comps: Components, c: ConnectionConfig, y: nat)
    requires c.source.component in comps && c.target.component in comps
    requires y < |comps[c.target.component].instances|
    ensures c.target.component in Connect(network, comps, c)
    ensures |Connect(network, comps, c)[c.target.component].instances| == |comps[c.target.component].instances|
    ensures var s, t := c.source.component, c.target.component;
      var before := comps[t].instances[y].inputs;
      var after := Connect(network, comps, c)[t].instances[y].inputs;
      var links := InLinks(network, c, comps[s], 0, |comps[s].instances|, comps[t], y);
      && |links| == |comps[s].instances|
      && (|links| > 0 ==> FirstPortNamed(after, c.target.port).Some?)
      && PortConnections(after, c.target.port) == PortConnections(before, c.target.port) + links
      && (|links| > 0 ==> |after| == |before| + (if FirstPortNamed(before, c.target.port).Some? then 0 else 1))
      && (forall k :: 0 <= k < |before| && before[k].name != c.target.port ==> after[k] == before[k])
      && (forall x :: 0 <= x < |links| ==>
            && links[x].delivery == c.delivery && links[x].order == OrderOf(c.ordered)
            && links[x].source == links[x].address
            && links[x].address == OutConn(network, c, comps[s], x, comps[t]).targets[y])
  {
    var s, t := c.source.component, c.target.component;
    ConnectAt(network, comps, c, t, y);
    var before := comps[t].instances[y].inputs;
    var links := InLinks(network, c, comps[s], 0, |comps[s].instances|, comps[t], y);
    forall x | 0 <= x < |links|
      ensures links[x].delivery == c.delivery && links[x].order == OrderOf(c.ordered)
      ensures links[x].source == links[x].address
      ensures links[x].address == OutConn(network, c, comps[s], x, comps[t]).targets[y]
    {
      LinksMatchTargets(network, c, comps[s], comps[t], x, y);
    }
    if links != [] {
      AttachFindOrCreate(before, c.target.port, InputPortOf(network, c, comps[t], y), links);
    } else {
      assert PortConnections(before, c.target.port) + links == PortConnections(before, c.target.port);
    }
  }

  /** The one-to-one correspondence between output connection targets and
      input connections: the input connection target instance `y` gets from
      source instance `x` is the `y`-th target of `x`'s output connection, its
      own source, and has that output connection's delivery and order. */
  lemma LinksMatchTargets(network: string, c: ConnectionConfig, src: ComponentContext, tgt: ComponentContext, x: nat, y: nat)
    requires x < |src.instances| && y < |tgt.instances|
    ensures var link := InLinks(network, c, src, 0, |src.instances|, tgt, y)[x];
      var conn := OutConn(network, c, src, x, tgt);
      && link.address == conn.targets[y]
      && link.source == link.address
      && link.delivery == conn.delivery && link.order == conn.order
  {
    assert InLinks(network, c, src, 0, |src.instances|, tgt, y)[x]
        == InputLink(c, network, src.name, src.instances[x].number, tgt.name, tgt.instances[y].number);
  }

  /** Components other than the config's source and target are untouched. */
  lemma ConnectLeavesOthers(network: string, comps: Components, c: ConnectionConfig, n: string)
    requires n in comps && n != c.source.component && n != c.target.component
    ensures n in Connect(network, comps, c) && Connect(network, comps, c)[n] == comps[n]
  {
    if c.source.component in comps && c.target.component in comps {
      var r := Connect(network, comps, c);
      ConnectClosedForm(network, comps, c);
      forall x | 0 <= x < |comps[n].instances|
        ensures r[n].instances[x] == comps[n].instances[x]
      {
        ConnectAt(network, comps, c, n, x);
      }
      assert r[n].(instances := []) == comps[n].(instances := []);
      assert r[n].instances == comps[n].instances;
    }
  }

  // ---------------------------------------------------------------------------
  // The whole build.

  /** The components map holds one context per configured component name. */
  lemma {:induction false} ComponentMapKeys(network: string, cs: seq<ComponentConfig>)
    ensures ComponentMap(network, cs).Keys == set k | 0 <= k < |cs| :: cs[k].name
    decreases |cs|
  {
    if cs != [] {
      var init := cs[..|cs| - 1];
      ComponentMapKeys(network, init);
      assert (set k | 0 <= k < |cs| :: cs[k].name) == (set k | 0 <= k < |init| :: init[k].name) + {cs[|cs| - 1].name};
    }
  }

  /** For a name configured more than once, the last config wins (`put`
      replaces the earlier context). */
  lemma {:induction false} ComponentMapLookup(network: string, cs: seq<ComponentConfig>, k: nat)
    requires k < |cs|
    requires forall l :: k < l < |cs| ==> cs[l].name != cs[k].name
    ensures cs[k].name in ComponentMap(network, cs)
    ensures ComponentMap(network, cs)[cs[k].name] == ComponentContextFor(network, cs[k])
    decreases |cs|
  {
    if k < |cs| - 1 {
      var init := cs[..|cs| - 1];
      assert init[k] == cs[k];
      ComponentMapLookup(network, init, k);
    }
  }

  /** Wiring a connection config never changes anything but ports. */
  lemma ConnectFrame(network: string, comps: Components, c: ConnectionConfig)
    ensures SameFrame(comps, Connect(network, comps, c))
  {
    if c.source.component in comps && c.target.component in comps {
      ConnectClosedForm(network, comps, c);
    }
  }

  lemma {:induction false} ConnectAllFrame(network: string, comps: Components, cs: seq<ConnectionConfig>)
    ensures SameFrame(comps, ConnectAll(network, comps, cs))
    decreases |cs|
  {
    if cs != [] {
      var prev := ConnectAll(network, comps, cs[..|cs| - 1]);
      ConnectAllFrame(network, comps, cs[..|cs| - 1]);
      ConnectFrame(network, prev, cs[|cs| - 1]);
      SameFrameTrans(comps, prev, Connect(network, prev, cs[|cs| - 1]));
    }
  }

  /** In the built context, every component named in the configuration keeps
      what its (last) config gave it: name, address `<net>.<name>`, status
      address, kind, config, hooks, group, and instances numbered 1..N with
      addresses `<address>-<i>`, a status address only for verticles. Only
      ports differ. */
  lemma CompiledComponent(network: NetworkConfig, k: nat)
    requires k < |network.components|
    requires forall l :: k < l < |network.components| ==> network.components[l].name != network.components[k].name
    ensures var cfg := network.components[k];
      var expected := ComponentContextFor(network.name, cfg);
      && cfg.name in Compile(network)
      && Compile(network)[cfg.name].(instances := []) == expected.(instances := [])
      && |Compile(network)[cfg.name].instances| == |expected.instances|
      && forall x :: 0 <= x < |expected.instances| ==>
           Unwired(Compile(network)[cfg.name].instances[x]) == Unwired(expected.instances[x])
  {
    var initial := ComponentMap(network.name, network.components);
    ComponentMapLookup(network.name, network.components, k);
    ConnectAllFrame(network.name, initial, network.connections);
  }

  /** Connection configs never add or remove components: the built context
      has exactly the configured component names. */
  lemma CompiledNames(network: NetworkConfig)
    ensures Compile(network).Keys == set k | 0 <= k < |network.components| :: network.components[k].name
  {
    ComponentMapKeys(network.name, network.components);
    ConnectAllFrame(network.name, ComponentMap(network.name, network.components), network.connections);
  }
}
