/** The component runtime's startup sequence and hook forwarding. `start`
    runs, unless the component has already started, a chain of five setup
    stages (coordinator start, acker start, output open, input open,
    coordinator resume), each gated on the success of the one before; the
    resume handler alone marks the component started. Hooks live in a list;
    the first hook added installs one forwarding hook on the input collector
    and one on the output collector, and those forward every message event to
    every hook in list order.

    Each stage's asynchronous outcome is an input (`SetupOutcomes`); the
    collectors, acker and coordinator are represented by what setup does to
    them: a generation number for the collectors created by the latest setup
    and the number of forwarding hooks installed on them. */
module ComponentLifecycle {
  import opened Common

  /** A `ComponentHook`, identified by a token. */
  type Hook = nat

  /** The parts of the instance context setup reads: the hooks declared for
      the component. */
  datatype InstanceContext = InstanceContext(address: string, hooks: seq<Hook>)

  datatype Stage = CoordinatorStart | AckerStart | OutputOpen | InputOpen | CoordinatorResume

  /** The setup stages in the order they run. */
  const PIPELINE: seq<Stage> := [CoordinatorStart, AckerStart, OutputOpen, InputOpen, CoordinatorResume]

  /** The message events the forwarding hooks relay: receive, ack and fail
      from the input collector; emit, acked, failed and timeout from the
      output collector. */
  datatype MessageEvent = Receive | Ack | Fail | Emit | Acked | Failed | Timeout

  datatype HookCall = MessageCall(hook: Hook, event: MessageEvent, id: string) | StartCall(hook: Hook)

  /** What each asynchronous setup stage reports. */
  datatype SetupOutcomes = SetupOutcomes(
    coordinator: Result<InstanceContext, string>,
    acker: Result<(), string>,
    output: Result<(), string>,
    input: Result<(), string>)

  /** How many stages run: up to and including the first failure, or all five. */
  function RunLength(o: SetupOutcomes): (n: nat)
    ensures 1 <= n <= |PIPELINE|
  {
    if o.coordinator.Failure? then 1
    else if o.acker.Failure? then 2
    else if o.output.Failure? then 3
    else if o.input.Failure? then 4
    else 5
  }

  /** Whether stage `i` of the pipeline fails under `o` (resume never fails). */
  predicate StageFails(o: SetupOutcomes, i: nat)
  {
    (i == 0 && o.coordinator.Failure?) || (i == 1 && o.acker.Failure?)
    || (i == 2 && o.output.Failure?) || (i == 3 && o.input.Failure?)
  }

  /** The cause setup reports: that of the first failing stage, if any. */
  function FirstFailure(o: SetupOutcomes): Option<string>
  {
    if o.coordinator.Failure? then Some(o.coordinator.error)
    else if o.acker.Failure? then Some(o.acker.error)
    else if o.output.Failure? then Some(o.output.error)
    else if o.input.Failure? then Some(o.input.error)
    else None
  }

  /** The stages run form a prefix of the pipeline in which every stage but
      the last succeeded; the last one failed exactly when setup fails, and
      no stage after a failure runs. */
  lemma SetupGated(o: SetupOutcomes)
    ensures forall i :: 0 <= i < RunLength(o) - 1 ==> !StageFails(o, i)
    ensures StageFails(o, RunLength(o) - 1) <==> FirstFailure(o).Some?
    ensures FirstFailure(o).None? <==> RunLength(o) == |PIPELINE|
  {
  }

  function MessageCalls(hooks: seq<Hook>, event: MessageEvent, id: string): (calls: seq<HookCall>)
    ensures |calls| == |hooks|
    ensures forall i :: 0 <= i < |hooks| ==> calls[i] == MessageCall(hooks[i], event, id)
  {
    if hooks == [] then [] else MessageCalls(hooks[..|hooks| - 1], event, id) + [MessageCall(hooks[|hooks| - 1], event, id)]
  }

  function StartCalls(hooks: seq<Hook>): (calls: seq<HookCall>)
    ensures |calls| == |hooks|
    ensures forall i :: 0 <= i < |hooks| ==> calls[i] == StartCall(hooks[i])
  {
    if hooks == [] then [] else StartCalls(hooks[..|hooks| - 1]) + [StartCall(hooks[|hooks| - 1])]
  }

  class DefaultComponent {
    var context: Option<InstanceContext>
    /** Generation of the input/output collectors; 0 while they are null. */
    var collectors: nat
    /** Forwarding hooks added to the current input and output collectors. */
    var inputForwarders: nat
    var outputForwarders: nat
    var hooks: seq<Hook>
    var started: bool
    /** Setup stages run so far, in order. */
    var stages: seq<Stage>
    /** Hook invocations so far, in order. */
    var calls: seq<HookCall>

    constructor ()
      ensures context.None? && collectors == 0 && hooks == [] && !started
      ensures stages == [] && calls == [] && inputForwarders == 0 && outputForwarders == 0
    {
      context := None;
      collectors := 0;
      inputForwarders := 0;
      outputForwarders := 0;
      hooks := [];
      started := false;
      stages := [];
      calls := [];
    }

    /** `addHook`: on an empty hook list, first installs the forwarding hooks
        on both collectors (which must exist by then); then appends. */
    method AddHook(hook: Hook)
      requires hooks == [] ==> collectors > 0
      modifies this
      ensures hooks == old(hooks) + [hook]
      ensures inputForwarders == old(inputForwarders) + (if old(hooks) == [] then 1 else 0)
      ensures outputForwarders == old(outputForwarders) + (if old(hooks) == [] then 1 else 0)
      ensures context == old(context) && collectors == old(collectors) && started == old(started)
      ensures stages == old(stages) && calls == old(calls)
    {
      if hooks == [] {
        inputForwarders := inputForwarders + 1;
        outputForwarders := outputForwarders + 1;
      }
      hooks := hooks + [hook];
    }

    /** The hooks declared in the context, added in order. */
    method AddContextHooks(declared: seq<Hook>)
      requires collectors > 0
      modifies this
      ensures hooks == old(hooks) + declared
      ensures inputForwarders == old(inputForwarders) + (if old(hooks) == [] && declared != [] then 1 else 0)
      ensures outputForwarders == old(outputForwarders) + (if old(hooks) == [] && declared != [] then 1 else 0)
      ensures context == old(context) && collectors == old(collectors) && started == old(started)
      ensures stages == old(stages) && calls == old(calls)
    {
      var i := 0;
      while i < |declared|
        invariant 0 <= i <= |declared|
        invariant hooks == old(hooks) + declared[..i]
        invariant inputForwarders == old(inputForwarders) + (if old(hooks) == [] && i > 0 then 1 else 0)
        invariant outputForwarders == old(outputForwarders) + (if old(hooks) == [] && i > 0 then 1 else 0)
        invariant context == old(context) && collectors == old(collectors) && started == old(started)
        invariant stages == old(stages) && calls == old(calls)
      {
        AddHook(declared[i]);
        assert declared[..i + 1] == declared[..i] + [declared[i]];
        i := i + 1;
      }
      assert declared[..i] == declared;
    }

    /** A forwarding hook relaying one message event: every hook, in list
        order, with the same id. */
    method Forward(event: MessageEvent, id: string)
      modifies this
      ensures calls == old(calls) + MessageCalls(hooks, event, id)
      ensures hooks == old(hooks) && context == old(context) && collectors == old(collectors)
      ensures started == old(started) && stages == old(stages)
      ensures inputForwarders == old(inputForwarders) && outputForwarders == old(outputForwarders)
    {
      var i := 0;
      while i < |hooks|
        invariant 0 <= i <= |hooks|
        invariant calls == old(calls) + MessageCalls(hooks[..i], event, id)
        invariant hooks == old(hooks) && context == old(context) && collectors == old(collectors)
        invariant started == old(started) && stages == old(stages)
        invariant inputForwarders == old(inputForwarders) && outputForwarders == old(outputForwarders)
      {
        assert hooks[..i + 1][..i] == hooks[..i];
        calls := calls + [MessageCall(hooks[i], event, id)];
        i := i + 1;
      }
      assert hooks[..i] == hooks;
    }

    /** `hookStart`: every hook's start handler, in list order. */
    method HookStart()
      modifies this
      ensures calls == old(calls) + StartCalls(hooks)
      ensures hooks == old(hooks) && context == old(context) && collectors == old(collectors)
      ensures started == old(started) && stages == old(stages)
      ensures inputForwarders == old(inputForwarders) && outputForwarders == old(outputForwarders)
    {
      var i := 0;
      while i < |hooks|
        invariant 0 <= i <= |hooks|
        invariant calls == old(calls) + StartCalls(hooks[..i])
        invariant hooks == old(hooks) && context == old(context) && collectors == old(collectors)
        invariant started == old(started) && stages == old(stages)
        invariant inputForwarders == old(inputForwarders) && outputForwarders == old(outputForwarders)
      {
        assert hooks[..i + 1][..i] == hooks[..i];
        calls := calls + [StartCall(hooks[i])];
        i := i + 1;
      }
      assert hooks[..i] == hooks;
    }

    /** `setup`: the stage chain. Once the coordinator delivers the context,
        fresh collectors are created and the context's hooks added; each later
        stage runs only if the one before succeeded; only the resume handler
        sets `started`, and it reports success. */
    method Setup(o: SetupOutcomes) returns (result: Result<(), string>)
      modifies this
      ensures stages == old(stages) + PIPELINE[..RunLength(o)]
      ensures result.Success? <==> FirstFailure(o).None?
      ensures result.Failure? ==> result.error == FirstFailure(o).value
      ensures started == (old(started) || result.Success?)
      ensures o.coordinator.Failure? ==>
        context == old(context) && collectors == old(collectors) && hooks == old(hooks)
        && inputForwarders == old(inputForwarders) && outputForwarders == old(outputForwarders)
      ensures o.coordinator.Success? ==>
        && context == Some(o.coordinator.value)
        && collectors == old(collectors) + 1
        && hooks == old(hooks) + o.coordinator.value.hooks
        && inputForwarders == (if old(hooks) == [] && o.coordinator.value.hooks != [] then 1 else 0)
        && outputForwarders == inputForwarders
      ensures calls == old(calls)
    {
      stages := stages + [CoordinatorStart];
      if o.coordinator.Failure? {
        return Failure(o.coordinator.error);
      }
      context := Some(o.coordinator.value);
      collectors := collectors + 1;
      inputForwarders := 0;
      outputForwarders := 0;
      AddContextHooks(o.coordinator.value.hooks);
      stages := stages + [AckerStart];
      if o.acker.Failure? {
        return Failure(o.acker.error);
      }
      stages := stages + [OutputOpen];
      if o.output.Failure? {
        return Failure(o.output.error);
      }
      stages := stages + [InputOpen];
      if o.input.Failure? {
        return Failure(o.input.error);
      }
      // `coordinator.resume()` fires the resume handler.
      stages := stages + [CoordinatorResume];
      started := true;
      result := Success(());
    }

    /** `start`: a started component succeeds at once without running setup
        again; otherwise setup runs, and the start hooks run only if it
        succeeds, before the result is reported. */
    method Start(o: SetupOutcomes) returns (result: Result<(), string>)
      modifies this
      ensures old(started) ==> result.Success? && stages == old(stages) && calls == old(calls) && hooks == old(hooks)
      ensures old(started) ==>
        context == old(context) && collectors == old(collectors)
        && inputForwarders == old(inputForwarders) && outputForwarders == old(outputForwarders)
      ensures !old(started) && o.coordinator.Failure? ==>
        context == old(context) && collectors == old(collectors) && hooks == old(hooks)
        && inputForwarders == old(inputForwarders) && outputForwarders == old(outputForwarders)
      ensures !old(started) && o.coordinator.Success? ==>
        && context == Some(o.coordinator.value)
        && collectors == old(collectors) + 1
        && hooks == old(hooks) + o.coordinator.value.hooks
        && inputForwarders == (if old(hooks) == [] && o.coordinator.value.hooks != [] then 1 else 0)
        && outputForwarders == inputForwarders
      ensures !old(started) ==> stages == old(stages) + PIPELINE[..RunLength(o)]
      ensures !old(started) ==> (result.Success? <==> FirstFailure(o).None?)
      ensures !old(started) && result.Failure? ==> result.error == FirstFailure(o).value && calls == old(calls)
      ensures !old(started) && result.Success? ==> calls == old(calls) + StartCalls(hooks)
      ensures started == (old(started) || result.Success?)
    {
      if !started {
        result := Setup(o);
        if result.Success? {
          HookStart();
        }
      } else {
        result := Success(());
      }
    }
  }
}
