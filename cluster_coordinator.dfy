/** The remote cluster coordinator client. Every operation sends a JSON
    envelope to the address "cluster" and turns the reply into a result for
    its handler; watches additionally keep a table from key to handler to
    the private bus address (and bus handler) registered for that watch.

    The event bus is represented by what the coordinator does to it: the
    envelopes it sends (`sent`) and the addresses at which it has a local
    handler registered (`registered`). Each asynchronous callback is a step
    method whose input is the outcome the bus delivered. */
module ClusterCoordination {
  import opened Common

  const CLUSTER_ADDRESS: string := "cluster"

  // ---------------------------------------------------------------------------
  // Requests and their envelopes.

  datatype Request =
    | IsDeployed(id: string)
    | DeployModule(id: string, moduleName: string, config: JsonObject, instances: Int32)
    | DeployVerticle(id: string, main: string, config: JsonObject, instances: Int32)
    | DeployWorkerVerticle(id: string, main: string, config: JsonObject, instances: Int32, multiThreaded: bool)
    | UndeployModule(id: string)
    | UndeployVerticle(id: string)
    | Set(key: string, value: Json)
    | Get(key: string, default: Json)
    | Delete(key: string)
    | Exists(key: string)

  function ActionName(r: Request): string
  {
    match r
    case IsDeployed(_) => "check"
    case DeployModule(_, _, _, _) => "deploy"
    case DeployVerticle(_, _, _, _) => "deploy"
    case DeployWorkerVerticle(_, _, _, _, _) => "deploy"
    case UndeployModule(_) => "undeploy"
    case UndeployVerticle(_) => "undeploy"
    case Set(_, _) => "set"
    case Get(_, _) => "get"
    case Delete(_) => "delete"
    case Exists(_) => "exists"
  }

  /** The envelope each operation sends: the `action` discriminator plus the
      fields of that action. */
  function Envelope(r: Request): (env: JsonObject)
    ensures "action" in env && env["action"] == JStr(ActionName(r))
    ensures r.DeployModule? ==> GetValue(env, "type") == JStr("module")
    ensures r.DeployVerticle? || r.DeployWorkerVerticle? ==> GetValue(env, "type") == JStr("verticle")
    ensures r.DeployWorkerVerticle? ==>
      GetValue(env, "worker") == JBool(true) && GetValue(env, "multi-threaded") == JBool(r.multiThreaded)
    ensures !r.DeployWorkerVerticle? ==> "worker" !in env
  {
    match r
    case IsDeployed(id) => map["action" := JStr("check"), "id" := JStr(id)]
    case DeployModule(id, moduleName, config, instances) =>
      map["action" := JStr("deploy"), "id" := JStr(id), "type" := JStr("module"),
          "module" := JStr(moduleName), "config" := JObj(config), "instances" := JNum(instances)]
    case DeployVerticle(id, main, config, instances) =>
      map["action" := JStr("deploy"), "id" := JStr(id), "type" := JStr("verticle"),
          "main" := JStr(main), "config" := JObj(config), "instances" := JNum(instances)]
    case DeployWorkerVerticle(id, main, config, instances, multiThreaded) =>
      map["action" := JStr("deploy"), "id" := JStr(id), "type" := JStr("verticle"),
          "main" := JStr(main), "config" := JObj(config), "instances" := JNum(instances),
          "worker" := JBool(true), "multi-threaded" := JBool(multiThreaded)]
    case UndeployModule(id) => map["action" := JStr("undeploy"), "id" := JStr(id), "type" := JStr("module")]
    case UndeployVerticle(id) => map["action" := JStr("undeploy"), "id" := JStr(id), "type" := JStr("verticle")]
    case Set(key, value) => map["action" := JStr("set"), "key" := JStr(key), "value" := value]
    case Get(key, default) => map["action" := JStr("get"), "key" := JStr(key), "default" := default]
    case Delete(key) => map["action" := JStr("delete"), "key" := JStr(key)]
    case Exists(key) => map["action" := JStr("exists"), "key" := JStr(key)]
  }

  /** How a receiver reads an envelope back: the request it encodes, if any. */
  function RequestOf(env: JsonObject): Option<Request>
  {
    var action := GetValue(env, "action");
    var id := GetValue(env, "id");
    var key := GetValue(env, "key");
    var kind := GetValue(env, "type");
    var config := GetValue(env, "config");
    var instances := GetValue(env, "instances");
    if action == JStr("check") && id.JStr? then Some(IsDeployed(id.s))
    else if action == JStr("deploy") && id.JStr? && config.JObj? && instances.JNum? && INT_MIN <= instances.n <= INT_MAX then
      if kind == JStr("module") && GetValue(env, "module").JStr? then
        Some(DeployModule(id.s, GetValue(env, "module").s, config.fields, instances.n))
      else if kind == JStr("verticle") && GetValue(env, "main").JStr? then
        if "worker" !in env then Some(DeployVerticle(id.s, GetValue(env, "main").s, config.fields, instances.n))
        else if GetValue(env, "multi-threaded").JBool? then
          Some(DeployWorkerVerticle(id.s, GetValue(env, "main").s, config.fields, instances.n, GetValue(env, "multi-threaded").b))
        else None
      else None
    else if action == JStr("undeploy") && id.JStr? then
      if kind == JStr("module") then Some(UndeployModule(id.s))
      else if kind == JStr("verticle") then Some(UndeployVerticle(id.s))
      else None
    else if action == JStr("set") && key.JStr? then Some(Set(key.s, GetValue(env, "value")))
    else if action == JStr("get") && key.JStr? then Some(Get(key.s, GetValue(env, "default")))
    else if action == JStr("delete") && key.JStr? then Some(Delete(key.s))
    else if action == JStr("exists") && key.JStr? then Some(Exists(key.s))
    else None
  }

  /** Every envelope reads back as the request that produced it, so distinct
      requests never share an envelope. */
  lemma EnvelopeRoundTrip(r: Request)
    ensures RequestOf(Envelope(r)) == Some(r)
  {
  }

  lemma EnvelopeInjective(r1: Request, r2: Request)
    requires Envelope(r1) == Envelope(r2)
    ensures r1 == r2
  {
    EnvelopeRoundTrip(r1);
    EnvelopeRoundTrip(r2);
  }

  // ---------------------------------------------------------------------------
  // Replies.

  /** What the bus hands a reply handler: a transport failure (timeout, no
      handler) or the reply body. */
  datatype Reply = TransportFailure(cause: string) | Replied(body: JsonObject)

  datatype Error =
    | Cause(cause: string)
    | DeploymentException(message: Option<string>)
    | VertxException(message: Option<string>)

  /** What reaches the done handler: a value, a typed failure, or nothing at
      all because the reply handler itself threw (`reason`). */
  datatype Outcome<+T> = Succeeded(value: T) | Failed(error: Error) | Aborted(reason: string)

  const CLASS_CAST: string := "ClassCastException"
  const NULL_POINTER: string := "NullPointerException"

  /** `body.getString(key)`: the Vert.x 2 getter casts the stored value
      unchecked, so an absent key or null reads as null and any other
      non-string throws. */
  function StringField(body: JsonObject, key: string): (r: Result<Option<string>, string>)
    ensures r.Success? <==> GetValue(body, key).JStr? || GetValue(body, key).JNull?
    ensures r.Success? && r.value.Some? ==> GetValue(body, key) == JStr(r.value.value)
    ensures r.Success? && r.value.None? ==> GetValue(body, key) == JNull
    ensures r.Failure? ==> r.error == CLASS_CAST
  {
    match GetValue(body, key)
    case JStr(v) => Success(Some(v))
    case JNull => Success(None)
    case _ => Failure(CLASS_CAST)
  }

  /** `body.getBoolean(key)`: the same unchecked cast, to `Boolean`. */
  function BooleanField(body: JsonObject, key: string): (r: Result<Option<bool>, string>)
    ensures r.Success? <==> GetValue(body, key).JBool? || GetValue(body, key).JNull?
    ensures r.Success? && r.value.Some? ==> GetValue(body, key) == JBool(r.value.value)
    ensures r.Success? && r.value.None? ==> GetValue(body, key) == JNull
    ensures r.Failure? ==> r.error == CLASS_CAST
  {
    match GetValue(body, key)
    case JBool(v) => Success(Some(v))
    case JNull => Success(None)
    case _ => Failure(CLASS_CAST)
  }

  /** How an action reads its result from an "ok" reply: `check` and
      `exists` with `getBoolean("result")`, the deployments with
      `getString("id")`, `get` with the uncast `getValue("result")`; the
      others complete with null. */
  datatype ResultRead = NoResult | BooleanResult(key: string) | StringResult(key: string) | ValueResult(key: string)

  function ResultField(r: Request): ResultRead
  {
    match r
    case IsDeployed(_) => BooleanResult("result")
    case DeployModule(_, _, _, _) => StringResult("id")
    case DeployVerticle(_, _, _, _) => StringResult("id")
    case DeployWorkerVerticle(_, _, _, _, _) => StringResult("id")
    case Get(_, _) => ValueResult("result")
    case Exists(_) => BooleanResult("result")
    case _ => NoResult
  }

  /** The result an "ok" reply hands the done handler, or the cast failure
      that keeps it from being called. */
  function ReadResult(body: JsonObject, read: ResultRead): (r: Result<Json, string>)
    ensures read.NoResult? ==> r == Success(JNull)
    ensures !read.NoResult? && r.Success? ==> r.value == GetValue(body, read.key)
    ensures r.Failure? <==>
      || (read.BooleanResult? && !GetValue(body, read.key).JBool? && !GetValue(body, read.key).JNull?)
      || (read.StringResult? && !GetValue(body, read.key).JStr? && !GetValue(body, read.key).JNull?)
    ensures r.Failure? ==> r.error == CLASS_CAST
  {
    match read
    case NoResult => Success(JNull)
    case BooleanResult(key) =>
      (match BooleanField(body, key)
       case Failure(e) => Failure(e)
       case Success(b) => Success(if b.Some? then JBool(b.value) else JNull))
    case StringResult(key) =>
      (match StringField(body, key)
       case Failure(e) => Failure(e)
       case Success(v) => Success(if v.Some? then JStr(v.value) else JNull))
    case ValueResult(key) => Success(GetValue(body, key))
  }

  /** Deployment actions report a `DeploymentException`, the others a `VertxException`. */
  predicate IsDeploymentAction(r: Request)
  {
    r.IsDeployed? || r.DeployModule? || r.DeployVerticle? || r.DeployWorkerVerticle? || r.UndeployModule? || r.UndeployVerticle?
  }

  /** A reply field the casting `getString` reads without throwing. */
  predicate StringOrNull(v: Json)
  {
    v.JStr? || v.JNull?
  }

  /** The reply handler of every non-watch action, uniformly: a transport
      failure fails with its cause; status "ok" succeeds with the action's
      result; any other status fails with the reply's `message`. A null
      status is a null dereference and a wrongly typed field a cast failure
      inside the handler: the done handler is then never called. */
  function DecodeReply(r: Request, reply: Reply): (o: Outcome<Json>)
    ensures reply.TransportFailure? ==> o == Failed(Cause(reply.cause))
    ensures reply.Replied? && !StringOrNull(GetValue(reply.body, "status")) ==> o == Aborted(CLASS_CAST)
    ensures reply.Replied? && GetValue(reply.body, "status") == JNull ==> o == Aborted(NULL_POINTER)
    ensures reply.Replied? && GetValue(reply.body, "status") == JStr("ok") ==>
      if ReadResult(reply.body, ResultField(r)).Success?
      then o == Succeeded(ReadResult(reply.body, ResultField(r)).value)
      else o == Aborted(CLASS_CAST)
    ensures reply.Replied? && GetValue(reply.body, "status").JStr? && GetValue(reply.body, "status") != JStr("ok") ==>
      var message := GetValue(reply.body, "message");
      if !StringOrNull(message) then o == Aborted(CLASS_CAST)
      else
        var m := if message.JStr? then Some(message.s) else None;
        o == if IsDeploymentAction(r) then Failed(DeploymentException(m)) else Failed(VertxException(m))
  {
    match reply
    case TransportFailure(cause) => Failed(Cause(cause))
    case Replied(body) =>
      match StringField(body, "status")
      case Failure(e) => Aborted(e)
      case Success(None) => Aborted(NULL_POINTER)
      case Success(Some(status)) =>
        if status == "ok" then
          match ReadResult(body, ResultField(r))
          case Failure(e) => Aborted(e)
          case Success(v) => Succeeded(v)
        else
          match StringField(body, "message")
          case Failure(e) => Aborted(e)
          case Success(m) =>
            if IsDeploymentAction(r) then Failed(DeploymentException(m)) else Failed(VertxException(m))
  }

  /** A reply whose status is a string and whose fields have the types the
      handler reads always reaches the done handler. */
  lemma WellTypedReplyCompletes(r: Request, body: JsonObject)
    requires GetValue(body, "status").JStr?
    requires StringOrNull(GetValue(body, "message"))
    requires ResultField(r).BooleanResult? ==> GetValue(body, "result").JBool? || GetValue(body, "result").JNull?
    requires ResultField(r).StringResult? ==> StringOrNull(GetValue(body, ResultField(r).key))
    ensures !DecodeReply(r, Replied(body)).Aborted?
  {
  }

  // ---------------------------------------------------------------------------
  // Watches.

  /** A `ClusterEvent` handler, identified by a token. */
  type HandlerRef = nat

  /** The wrapper stored per watch: the private address and the bus handler
      registered there (identified by a token). */
  datatype Wrapper = Wrapper(address: string, busHandler: nat)

  /** A watch whose remote request is in flight. */
  datatype PendingWatch = PendingWatch(key: string, handler: HandlerRef, id: string)

  /** An unwatch whose remote request is in flight. */
  datatype PendingUnwatch = PendingUnwatch(key: string, handler: HandlerRef)

  function WatchEnvelope(action: string, key: string, event: Option<string>, address: string): JsonObject
  {
    map["action" := JStr(action), "key" := JStr(key),
        "event" := (if event.Some? then JStr(event.value) else JNull), "address" := JStr(address)]
  }

  /** The watch replies on which the watch is withdrawn: a transport failure
      or a status of "error". */
  predicate WatchRejected(reply: Reply)
  {
    reply.TransportFailure? || GetValue(reply.body, "status") == JStr("error")
  }

  /** The watch reply handler's verdict: only a status of "error" fails; as
      for the other actions, a null status or a wrongly typed status or
      message keeps the done handler from being called. */
  function DecodeWatchReply(reply: Reply): (o: Outcome<()>)
    ensures reply.TransportFailure? ==> o == Failed(Cause(reply.cause))
    ensures reply.Replied? && !StringOrNull(GetValue(reply.body, "status")) ==> o == Aborted(CLASS_CAST)
    ensures reply.Replied? && GetValue(reply.body, "status") == JNull ==> o == Aborted(NULL_POINTER)
    ensures reply.Replied? && GetValue(reply.body, "status") == JStr("error") ==>
      var message := GetValue(reply.body, "message");
      o == if !StringOrNull(message) then Aborted(CLASS_CAST)
           else Failed(VertxException(if message.JStr? then Some(message.s) else None))
    ensures reply.Replied? && GetValue(reply.body, "status").JStr? && GetValue(reply.body, "status") != JStr("error") ==>
      o == Succeeded(())
    ensures o.Failed? ==> WatchRejected(reply)
  {
    match reply
    case TransportFailure(cause) => Failed(Cause(cause))
    case Replied(body) =>
      match StringField(body, "status")
      case Failure(e) => Aborted(e)
      case Success(None) => Aborted(NULL_POINTER)
      case Success(Some(status)) =>
        if status == "error" then
          match StringField(body, "message")
          case Failure(e) => Aborted(e)
          case Success(m) => Failed(VertxException(m))
        else Succeeded(())
  }

  class RemoteClusterCoordinator {
    /** `watchHandlers`: key -> handler -> wrapper. */
    var watchHandlers: map<string, map<HandlerRef, Wrapper>>
    /** Envelopes sent to the cluster address, in order. */
    var sent: seq<JsonObject>
    /** Bus addresses at which a watch handler is registered. */
    var registered: set<string>
    /** For each watch address ever issued, the key and handler it serves. */
    ghost var owners: map<string, (string, HandlerRef)>
    const uuids: UuidSource

    /** Every stored wrapper's address is registered on the bus and belongs
        to the entry that stores it; all addresses came from `uuids`. */
    ghost predicate Valid()
      reads this, uuids
    {
      && uuids.Valid()
      && owners.Keys <= uuids.issued
      && (forall k, h :: k in watchHandlers && h in watchHandlers[k] ==>
            && watchHandlers[k][h].address in registered
            && watchHandlers[k][h].address in owners
            && owners[watchHandlers[k][h].address] == (k, h))
    }

    constructor (source: UuidSource)
      requires source.Valid()
      ensures Valid() && uuids == source
      ensures watchHandlers == map[] && sent == [] && registered == {}
    {
      uuids := source;
      watchHandlers := map[];
      sent := [];
      registered := {};
      owners := map[];
    }

    /** `watch(key, event, handler, done)` up to its remote request: a fresh
        address, then the outcome of registering the bus handler there. A
        failed registration reports failure and changes no table; a
        successful one stores the wrapper under key and handler (creating
        the key's map if absent) before the watch envelope is sent. */
    method Watch(key: string, event: Option<string>, handler: HandlerRef, busHandler: nat, registration: Result<(), string>)
      returns (pending: Option<PendingWatch>, outcome: Option<Outcome<()>>)
      requires Valid()
      modifies this, uuids
      ensures Valid()
      ensures registration.Failure? ==>
        && pending.None? && outcome == Some(Failed(Cause(registration.error)))
        && watchHandlers == old(watchHandlers) && sent == old(sent) && registered == old(registered)
      ensures registration.Success? ==>
        && outcome.None? && pending.Some? && pending.value.key == key && pending.value.handler == handler
        && pending.value.id !in old(uuids.issued)
        && var id := pending.value.id;
        && registered == old(registered) + {id}
        && key in watchHandlers
        && watchHandlers == old(watchHandlers)[key := (if key in old(watchHandlers) then old(watchHandlers)[key] else map[])[handler := Wrapper(id, busHandler)]]
        && sent == old(sent) + [WatchEnvelope("watch", key, event, id)]
        && id in owners && owners[id] == (key, handler)
      ensures old(owners).Keys <= owners.Keys && forall a :: a in old(owners) ==> owners[a] == old(owners)[a]
      ensures old(watchHandlers).Keys <= watchHandlers.Keys
    {
      var id := uuids.Next();
      if registration.Failure? {
        return None, Some(Failed(Cause(registration.error)));
      }
      registered := registered + {id};
      var handlers: map<HandlerRef, Wrapper> := if key in watchHandlers then watchHandlers[key] else map[];
      watchHandlers := watchHandlers[key := handlers[handler := Wrapper(id, busHandler)]];
      owners := owners[id := (key, handler)];
      sent := sent + [WatchEnvelope("watch", key, event, id)];
      pending := Some(PendingWatch(key, handler, id));
      outcome := None;
    }

    /** The watch reply handler: on a transport failure or status "error" the
        bus handler is unregistered and the handler's entry removed (the
        key's map stays), before the message is read; otherwise the entry
        stays. */
    method WatchReplied(pending: PendingWatch, reply: Reply) returns (outcome: Outcome<()>)
      requires Valid()
      requires pending.key in watchHandlers
      requires pending.id in owners && owners[pending.id] == (pending.key, pending.handler)
      modifies this
      ensures Valid()
      ensures outcome == DecodeWatchReply(reply)
      ensures WatchRejected(reply) ==>
        && registered == old(registered) - {pending.id}
        && watchHandlers == old(watchHandlers)[pending.key := old(watchHandlers)[pending.key] - {pending.handler}]
      ensures !WatchRejected(reply) ==> registered == old(registered) && watchHandlers == old(watchHandlers)
      ensures sent == old(sent) && owners == old(owners)
    {
      outcome := DecodeWatchReply(reply);
      if WatchRejected(reply) {
        var gone: set<HandlerRef> := {pending.handler};
        registered := registered - {pending.id};
        watchHandlers := watchHandlers[pending.key := watchHandlers[pending.key] - gone];
      }
    }

    /** `unwatch(key, event, handler, done)` up to its remote request. A
        handler not stored under the key succeeds at once and sends nothing;
        otherwise the unwatch envelope carries the stored wrapper's address.
        A key with no map at all is a null dereference in the source. */
    method Unwatch(key: string, event: Option<string>, handler: HandlerRef)
      returns (pending: Option<PendingUnwatch>, outcome: Option<Outcome<()>>)
      requires Valid()
      requires key in watchHandlers
      modifies this
      ensures Valid()
      ensures handler !in old(watchHandlers)[key] ==> outcome == Some(Succeeded(())) && pending.None? && sent == old(sent)
      ensures handler in old(watchHandlers)[key] ==>
        && outcome.None? && pending == Some(PendingUnwatch(key, handler))
        && sent == old(sent) + [WatchEnvelope("unwatch", key, event, old(watchHandlers)[key][handler].address)]
      ensures watchHandlers == old(watchHandlers) && registered == old(registered) && owners == old(owners)
    {
      if handler !in watchHandlers[key] {
        return None, Some(Succeeded(()));
      }
      sent := sent + [WatchEnvelope("unwatch", key, event, watchHandlers[key][handler].address)];
      pending := Some(PendingUnwatch(key, handler));
      outcome := None;
    }

    /** The unwatch reply handler: on failure and on success alike, the entry
        is removed and its bus handler unregistered. A failure reports the
        cause; a success reports the outcome of the local unregistration. A
        handler already gone is a null dereference (the handler aborts). */
    method UnwatchReplied(pending: PendingUnwatch, reply: Reply, unregistration: Result<(), string>)
      returns (outcome: Outcome<()>)
      requires Valid()
      requires pending.key in watchHandlers
      modifies this
      ensures Valid()
      ensures pending.handler !in old(watchHandlers)[pending.key] ==>
        outcome.Aborted? && watchHandlers == old(watchHandlers) && registered == old(registered)
      ensures pending.handler in old(watchHandlers)[pending.key] ==>
        && registered == old(registered) - {old(watchHandlers)[pending.key][pending.handler].address}
        && watchHandlers == old(watchHandlers)[pending.key := old(watchHandlers)[pending.key] - {pending.handler}]
        && (reply.TransportFailure? ==> outcome == Failed(Cause(reply.cause)))
        && (reply.Replied? ==> outcome == (if unregistration.Success? then Succeeded(()) else Failed(Cause(unregistration.error))))
      ensures sent == old(sent) && owners == old(owners)
    {
      var handlers: map<HandlerRef, Wrapper> := watchHandlers[pending.key];
      if pending.handler !in handlers {
        return Aborted(NULL_POINTER);
      }
      var wrapper := handlers[pending.handler];
      var gone: set<HandlerRef> := {pending.handler};
      watchHandlers := watchHandlers[pending.key := handlers - gone];
      registered := registered - {wrapper.address};
      if reply.TransportFailure? {
        outcome := Failed(Cause(reply.cause));
      } else {
        outcome := if unregistration.Success? then Succeeded(()) else Failed(Cause(unregistration.error));
      }
    }
  }
}
