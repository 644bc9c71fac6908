# Vertigo core, modelled in Dafny

Vertigo is a stream-processing framework on the Vert.x event bus. A network
of components (modules or verticles, each deployed as a number of instances)
is wired by connections. This project models the parts of Vertigo that
compile and run such a network:

- the two context builders that turn a network definition into a network
  context. One wires port-to-port connection configs: instances, input and
  output ports, and one input connection per pair of source and target
  instances. The other wires named input streams, with auditors and
  connection ids drawn from `UUID.randomUUID()`. Each builder also fills in
  component addresses and instance numbering;
- the fields selector, a consistent-hashing grouping, with its state save
  and restore;
- the stream executor's pause/drain state machine and result futures;
- the remote cluster coordinator client: request envelopes, reply decoding,
  and the watch/unwatch handler table;
- the component runtime: the setup stage chain, the `started` flag, and the
  hook list with its forwarding hooks;
- the shared-data id generator, the component info record with its JSON
  constructor, the verticle configuration and the event-bus publishing hook.

Every module is one Java file. Code that changes state step by step (the
builders' loops, the executor, the coordinator, the component, the
generator, the records and the hook) is a method. Each such method is proved
against a pure function or against explicit post-states. The properties the
code promises are lemmas about those functions. `Common` holds the shared
vocabulary:

- `Option` and `Result`;
- a JSON value type;
- `%d` formatting;
- Java `int`/`long` arithmetic: truncating `%`, `Math.abs`, wrap-around;
- a source of fresh ids standing in for `UUID.randomUUID()`.

Asynchronous callbacks are step methods. Each one takes the outcome the
event bus delivered as a parameter: a reply, a registration result, or the
result of a setup stage.

Three behaviours of the code that its names and comments do not suggest:

- In the port-to-port builder, an input connection's `source` is its own
  address (`context/impl/ContextBuilder.java` line 196), not the address of
  the output connection feeding it.
- Two identical connection configs wire two identical input connections:
  each config adds its own input connection for every pair of instances.
- The stream executor never pauses: `queueFull()` returns the pause flag
  itself, so the pause branch of `checkPause` is dead and the drain handler
  is never called.

## Model

| member | source | states |
|---|---|---|
| `Common.DecimalRoundTrip` | src/main/java/net/kuujo/vertigo/context/impl/ContextBuilder.java:82 | the decimal text `%d` writes for a number reads back as that number |
| `Common.UuidSource.Next` | src/main/java/net/kuujo/vertigo/network/context/impl/ContextBuilder.java:171 | each id drawn differs from every id drawn before from the same source |
| `ContextBuilder.ComponentContextFor` | src/main/java/net/kuujo/vertigo/context/impl/ContextBuilder.java:63-121 | a component's context keeps name, kind, config, hooks, group, storage type and storage config. Its address is `<network>.<name>` and its status address that plus `.__status`. It has N instances numbered 1..N at `<address>-<i>`, with no ports; only verticle instances get a status address; instance addresses are pairwise distinct |
| `ContextBuilder.BuildComponent` | src/main/java/net/kuujo/vertigo/context/impl/ContextBuilder.java:78-88 | the instance loop builds exactly the component context above |
| `ContextBuilder.FirstPortNamed` | src/main/java/net/kuujo/vertigo/context/impl/ContextBuilder.java:143-148 | the port found is the first one with the name; `None` means no port has it |
| `ContextBuilder.FindPort` | src/main/java/net/kuujo/vertigo/context/impl/ContextBuilder.java:172-177 | the port-lookup loop stops at the first port with the name |
| `ContextBuilder.EnsurePort` | src/main/java/net/kuujo/vertigo/context/impl/ContextBuilder.java:150-159 | find-or-create: an existing port is reused unchanged; otherwise a port with the name and the given address is appended, and the result points at it |
| `ContextBuilder.Attach` | src/main/java/net/kuujo/vertigo/context/impl/ContextBuilder.java:180-204 | connections are appended to the first port with the name, in place; otherwise they go to a new port at the end |
| `ContextBuilder.LinkAllTargets` | src/main/java/net/kuujo/vertigo/context/impl/ContextBuilder.java:169-205 | the target-instance loop computes the spec fold `LinkTargets` |
| `ContextBuilder.LinkSourceInstance` | src/main/java/net/kuujo/vertigo/context/impl/ContextBuilder.java:140-209 | one source instance's body computes `LinkSource` |
| `ContextBuilder.LinkAllSources` | src/main/java/net/kuujo/vertigo/context/impl/ContextBuilder.java:140-210 | the source-instance loop computes `ConnectFrom` |
| `ContextBuilder.Connect` | src/main/java/net/kuujo/vertigo/context/impl/ContextBuilder.java:136-139 | a connection config whose source or target component is undeclared changes nothing |
| `ContextBuilder.ApplyConnection` | src/main/java/net/kuujo/vertigo/context/impl/ContextBuilder.java:132-211 | one connection config's wiring equals `Connect` |
| `ContextBuilder.BuildContext` | src/main/java/net/kuujo/vertigo/context/impl/ContextBuilder.java:51-216 | the network name is both name and address; the status address is `<name>.__status`; the components are `Compile(network)` |
| `ContextBuilderProofs.AttachFindOrCreate` | src/main/java/net/kuujo/vertigo/context/impl/ContextBuilder.java:141-159 | after attaching, the named port exists and its connections are the old ones plus the new. It keeps its address if it existed, else it gets the given one; at most one port is added |
| `ContextBuilderProofs.AttachTwice` | src/main/java/net/kuujo/vertigo/context/impl/ContextBuilder.java:141-159 | attaching twice to the same port name equals attaching both lists at once: ports are reused, never duplicated |
| `ContextBuilderProofs.ConnectOutputs` | src/main/java/net/kuujo/vertigo/context/impl/ContextBuilder.java:140-166 | each source instance's output port gets exactly one new output connection. That connection carries the config's delivery, order and grouping, and targets every target instance in order, at `out:…[x]->in:…[y]`. The port is created at `out:<port>@<net>.<comp>[<n>]` if absent; other ports are unchanged |
| `ContextBuilderProofs.ConnectInputs` | src/main/java/net/kuujo/vertigo/context/impl/ContextBuilder.java:168-205 | each target instance's input port gets one input connection per source instance, in source order. Each has the config's delivery and order, and its source equals its own address. Other ports are unchanged |
| `ContextBuilderProofs.LinksMatchTargets` | src/main/java/net/kuujo/vertigo/context/impl/ContextBuilder.java:190-201 | the input connection target instance y receives from source instance x has the y-th target address of x's output connection, with the same delivery and order |
| `ContextBuilderProofs.ConnectLeavesOthers` | src/main/java/net/kuujo/vertigo/context/impl/ContextBuilder.java:132-211 | components other than a config's source and target are untouched |
| `ContextBuilderProofs.ComponentMapKeys` | src/main/java/net/kuujo/vertigo/context/impl/ContextBuilder.java:62-122 | the component map holds exactly the configured names |
| `ContextBuilderProofs.ComponentMapLookup` | src/main/java/net/kuujo/vertigo/context/impl/ContextBuilder.java:90 | for a name configured more than once, the last config wins |
| `ContextBuilderProofs.ConnectAllFrame` | src/main/java/net/kuujo/vertigo/context/impl/ContextBuilder.java:132-211 | wiring connections changes nothing but ports |
| `ContextBuilderProofs.CompiledComponent` | src/main/java/net/kuujo/vertigo/context/impl/ContextBuilder.java:51-216 | in the built context, every configured component keeps name, address, status address, kind, config, hooks, group and its numbered instances; only ports differ |
| `ContextBuilderProofs.CompiledNames` | src/main/java/net/kuujo/vertigo/context/impl/ContextBuilder.java:62-214 | the built context has exactly the configured component names |
| `StreamContextBuilder.AuditorsStep` | src/main/java/net/kuujo/vertigo/network/context/impl/ContextBuilder.java:71-73 | auditor i adds `<address>.auditor.<i>`, an address not yet in the set |
| `StreamContextBuilder.AuditorCount` | src/main/java/net/kuujo/vertigo/network/context/impl/ContextBuilder.java:70-74 | n auditors give n distinct addresses, and a negative count gives none |
| `StreamContextBuilder.BuildAuditors` | src/main/java/net/kuujo/vertigo/network/context/impl/ContextBuilder.java:69-74 | the auditor loop builds exactly `Auditors(address, n)`, of size max(n, 0) |
| `StreamContextBuilder.Instances` | src/main/java/net/kuujo/vertigo/network/context/impl/ContextBuilder.java:100-108 | a component with n instances gets max(n, 0) instance contexts |
| `StreamContextBuilder.BuildInstances` | src/main/java/net/kuujo/vertigo/network/context/impl/ContextBuilder.java:131-139 | instance j is numbered j+1, has id `<address>-<j+1>`, and has no streams |
| `StreamContextBuilder.InstanceIdsDistinct` | src/main/java/net/kuujo/vertigo/network/context/impl/ContextBuilder.java:134 | instance ids within a component are pairwise distinct |
| `StreamContextBuilder.ComponentContextFor` | src/main/java/net/kuujo/vertigo/network/context/impl/ContextBuilder.java:84-143 | the explicit component address is used, else `<network>.<name>`; name, kind, config, hooks and group are copied; the instances are as above |
| `StreamContextBuilder.MapKeys` | src/main/java/net/kuujo/vertigo/network/context/impl/ContextBuilder.java:78-144 | the component map and the input map both hold exactly the configured names |
| `StreamContextBuilder.MapLookup` | src/main/java/net/kuujo/vertigo/network/context/impl/ContextBuilder.java:82 | for a repeated name, the last definition's context and inputs win |
| `StreamContextBuilder.ComponentMapUnwired` | src/main/java/net/kuujo/vertigo/network/context/impl/ContextBuilder.java:105-106 | before wiring, no instance has an input or output stream |
| `StreamContextBuilder.Wire` | src/main/java/net/kuujo/vertigo/network/context/impl/ContextBuilder.java:146-183 | wiring one input never adds or removes a component |
| `StreamContextBuilder.WireInput` | src/main/java/net/kuujo/vertigo/network/context/impl/ContextBuilder.java:156-181 | an input whose consumer or producer is undeclared draws no id and changes nothing. Otherwise it draws one fresh, pairwise distinct connection id per consumer instance and computes `Wire` |
| `StreamContextBuilder.WireConsumer` | src/main/java/net/kuujo/vertigo/network/context/impl/ContextBuilder.java:168-175 | consumer instance j gains exactly one input stream, on the input's stream, listening on id j |
| `StreamContextBuilder.WireProducer` | src/main/java/net/kuujo/vertigo/network/context/impl/ContextBuilder.java:177-180 | every producer instance gains exactly one output stream, with the input's stream and grouping, listing all the ids |
| `StreamContextBuilder.WireLinks` | src/main/java/net/kuujo/vertigo/network/context/impl/ContextBuilder.java:171-173 | the output stream's j-th connection is the connection consumer instance j listens on |
| `StreamContextBuilder.WireFrame` | src/main/java/net/kuujo/vertigo/network/context/impl/ContextBuilder.java:166-181 | wiring changes only streams. Only the consumer's input streams and the producer's output streams change |
| `StreamContextBuilder.WireInputs` | src/main/java/net/kuujo/vertigo/network/context/impl/ContextBuilder.java:149-182 | after a consumer's inputs, each of its instances has gained one input stream per input whose producer is declared. Every other component's inputs are unchanged; all connection ids are fresh |
| `StreamContextBuilder.BuildComponents` | src/main/java/net/kuujo/vertigo/network/context/impl/ContextBuilder.java:78-144 | the component loop builds the component map and input map, as left folds of `put` |
| `StreamContextBuilder.WireAll` | src/main/java/net/kuujo/vertigo/network/context/impl/ContextBuilder.java:146-183 | over the input map in any order, every instance ends with one input stream per declared input of its component; only streams change; every id is fresh |
| `StreamContextBuilder.BuildContext` | src/main/java/net/kuujo/vertigo/network/context/impl/ContextBuilder.java:61-188 | the built context copies address, acking flag and timeout. It has max(n, 0) auditors and exactly the configured names. Components are as configured, except for streams. Each instance has one input stream per declared input, and every connection id is fresh |
| `StreamContextBuilder.BuiltComponent` | src/main/java/net/kuujo/vertigo/network/context/impl/ContextBuilder.java:84-143 | each configured component (its last definition) keeps address, kind, config, hooks, group and instance ids and numbers in the built context |
| `StreamContextBuilder.MergeContexts` | src/main/java/net/kuujo/vertigo/network/context/impl/ContextBuilder.java:197-202 | merging fails exactly when the addresses differ; otherwise it returns the base unchanged |
| `StreamContextBuilder.UnmergeContexts` | src/main/java/net/kuujo/vertigo/network/context/impl/ContextBuilder.java:211-213 | unmerging returns the base unchanged |
| `StreamContextBuilder.MergeIgnoresContents` | src/main/java/net/kuujo/vertigo/network/context/impl/ContextBuilder.java:197-202 | merging reads only the merged context's address: any two contexts at the base's address merge to the base itself, so nothing of the merged network reaches the result |
| `FieldsSelection.GroupedValues` | src/main/java/net/kuujo/vertigo/output/selector/FieldsSelector.java:59-63 | the hashed map has exactly the grouped fields: the body's value where present, else null |
| `FieldsSelection.SelectIndex` | src/main/java/net/kuujo/vertigo/output/selector/FieldsSelector.java:64 | `Math.abs(h % n)` with Java's `%` is a valid index for every hash, including the most negative `int` |
| `FieldsSelection.FieldsSelector.Select` | src/main/java/net/kuujo/vertigo/output/selector/FieldsSelector.java:56-66 | a selector without field names fails on the null set. Otherwise exactly one connection, taken from the list, is selected; an empty list fails, with the division by zero |
| `FieldsSelection.SelectByGroupedValues` | src/main/java/net/kuujo/vertigo/output/selector/FieldsSelector.java:33-35 | two messages that agree on every grouped field go to the same connection |
| `FieldsSelection.FieldsSelector.constructor` | src/main/java/net/kuujo/vertigo/output/selector/FieldsSelector.java:42-43 | the no-argument selector has no field set (null) |
| `FieldsSelection.FieldsSelector.FromNames` | src/main/java/net/kuujo/vertigo/output/selector/FieldsSelector.java:45-50 | the field set is the set of the given names |
| `FieldsSelection.FieldsSelector.FromSet` | src/main/java/net/kuujo/vertigo/output/selector/FieldsSelector.java:52-54 | the field set is the given set |
| `FieldsSelection.FieldsSelector.GetState` | src/main/java/net/kuujo/vertigo/output/selector/FieldsSelector.java:68-75 | a selector without field names fails on the null set. Otherwise the state is `{"fields": [...]}`, listing every field name exactly once, as strings |
| `FieldsSelection.StringPrefix` | src/main/java/net/kuujo/vertigo/output/selector/FieldsSelector.java:82-84 | marks where the `(String)` cast first fails: every element before it is a string |
| `FieldsSelection.FieldsSelector.SetState` | src/main/java/net/kuujo/vertigo/output/selector/FieldsSelector.java:77-86 | the field names become those `Restore` reads. They are empty without a `fields` array; a cast failure is reported, keeping the names added before it |
| `FieldsSelection.StateRoundTrip` | src/main/java/net/kuujo/vertigo/output/selector/FieldsSelector.java:68-86 | restoring a saved state gives back the same field names |
| `FieldsSelection.RestoreWithoutFields` | src/main/java/net/kuujo/vertigo/output/selector/FieldsSelector.java:80-81 | a state without a `fields` array restores no names |
| `StreamExecution.Drain` | src/main/java/net/kuujo/vertigo/rpc/DefaultStreamExecutor.java:100-106 | the drain handler is called once exactly when the executor was paused and a handler is set |
| `StreamExecution.StreamExecutor.constructor` | src/main/java/net/kuujo/vertigo/rpc/DefaultStreamExecutor.java:47-49 | a new executor is unpaused, with no handler, no drain and no futures |
| `StreamExecution.StreamExecutor.QueueFull` | src/main/java/net/kuujo/vertigo/rpc/DefaultStreamExecutor.java:51-54 | the queue counts as full exactly when the executor is paused |
| `StreamExecution.StreamExecutor.SetDrainHandler` | src/main/java/net/kuujo/vertigo/rpc/DefaultStreamExecutor.java:56-60 | replaces the drain handler and nothing else |
| `StreamExecution.StreamExecutor.CheckPause` | src/main/java/net/kuujo/vertigo/rpc/DefaultStreamExecutor.java:99-111 | the executor ends unpaused; a paused one calls its drain handler, if any, exactly once |
| `StreamExecution.StreamExecutor.Execute` | src/main/java/net/kuujo/vertigo/rpc/DefaultStreamExecutor.java:67-94 | the message gets a pending future. An executor that never paused stays unpaused and never drains |
| `StreamExecution.StreamExecutor.OnResult` | src/main/java/net/kuujo/vertigo/rpc/DefaultStreamExecutor.java:71-77 | the future succeeds with the result, then the pause check runs |
| `StreamExecution.StreamExecutor.OnFailure` | src/main/java/net/kuujo/vertigo/rpc/DefaultStreamExecutor.java:78-84 | the future fails with "Processing failed.", then the pause check runs |
| `StreamExecution.StreamExecutor.OnTimeout` | src/main/java/net/kuujo/vertigo/rpc/DefaultStreamExecutor.java:85-91 | the future fails with "Processing timed out.", then the pause check runs |
| `ClusterCoordination.Envelope` | src/main/java/net/kuujo/vertigo/coordinator/impl/RemoteClusterCoordinator.java:68-330 | every request carries its action. Deployments carry their type, module or verticle; only worker deployments carry `worker: true` and the multi-threaded flag |
| `ClusterCoordination.EnvelopeRoundTrip` | src/main/java/net/kuujo/vertigo/coordinator/impl/RemoteClusterCoordinator.java:68-330 | every envelope decodes back to the request that produced it |
| `ClusterCoordination.EnvelopeInjective` | src/main/java/net/kuujo/vertigo/coordinator/impl/RemoteClusterCoordinator.java:68-330 | distinct requests never share an envelope |
| `ClusterCoordination.StringField` | src/main/java/net/kuujo/vertigo/coordinator/impl/RemoteClusterCoordinator.java:78 | the casting `getString`: a string or null is read, and any other value fails the cast |
| `ClusterCoordination.BooleanField` | src/main/java/net/kuujo/vertigo/coordinator/impl/RemoteClusterCoordinator.java:79 | the casting `getBoolean`: a boolean or null is read, and any other value fails the cast |
| `ClusterCoordination.ReadResult` | src/main/java/net/kuujo/vertigo/coordinator/impl/RemoteClusterCoordinator.java:73-334 | an "ok" reply's result: `check` and `exists` read a boolean, deployments a string `id`, `get` any value, and the others null. A wrongly typed boolean or string fails the cast |
| `ClusterCoordination.DecodeReply` | src/main/java/net/kuujo/vertigo/coordinator/impl/RemoteClusterCoordinator.java:73-334 | a transport failure fails with its cause. Status "ok" succeeds with the action's result. Any other status fails with the reply's message: a `DeploymentException` for deployment actions, else a `VertxException`. A null status aborts the handler with a null dereference, and a wrongly typed status, result or message with a cast failure; the done handler is then never called |
| `ClusterCoordination.WellTypedReplyCompletes` | src/main/java/net/kuujo/vertigo/coordinator/impl/RemoteClusterCoordinator.java:73-334 | a reply with a string status and fields of the types the handler reads always reaches the done handler |
| `ClusterCoordination.DecodeWatchReply` | src/main/java/net/kuujo/vertigo/coordinator/impl/RemoteClusterCoordinator.java:386-402 | a watch reply fails only on a transport failure or status "error", with the message read by the casting getter; any other string status succeeds. A null status or a wrongly typed status or message aborts the handler |
| `ClusterCoordination.RemoteClusterCoordinator.constructor` | src/main/java/net/kuujo/vertigo/coordinator/impl/RemoteClusterCoordinator.java:63-66 | a new client has an empty watch table, has sent nothing and has nothing registered |
| `ClusterCoordination.RemoteClusterCoordinator.Watch` | src/main/java/net/kuujo/vertigo/coordinator/impl/RemoteClusterCoordinator.java:355-384 | the watch draws a fresh private address. A failed registration reports the cause and changes nothing. Otherwise the handler is stored under the key (creating the key's map), the address is registered, and the watch envelope is sent with that address. Every stored wrapper stays registered and owned by its entry |
| `ClusterCoordination.RemoteClusterCoordinator.WatchReplied` | src/main/java/net/kuujo/vertigo/coordinator/impl/RemoteClusterCoordinator.java:386-404 | on a transport failure or status "error", the address is unregistered and only that handler's entry removed, even when reading the message then fails. Any other reply keeps the entry. The outcome is `DecodeWatchReply` |
| `ClusterCoordination.RemoteClusterCoordinator.Unwatch` | src/main/java/net/kuujo/vertigo/coordinator/impl/RemoteClusterCoordinator.java:430-439 | unwatching a handler not stored under the key succeeds at once and sends nothing. Otherwise the unwatch envelope names the stored address |
| `ClusterCoordination.RemoteClusterCoordinator.UnwatchReplied` | src/main/java/net/kuujo/vertigo/coordinator/impl/RemoteClusterCoordinator.java:441-451 | on either reply the entry is removed and its address unregistered. A transport failure reports the cause; a reply reports the local unregistration's result |
| `ComponentLifecycle.SetupGated` | src/main/java/net/kuujo/vertigo/component/impl/DefaultComponent.java:191-235 | the stages run form a prefix of the pipeline in which every stage but the last succeeded; the last failed exactly when setup fails |
| `ComponentLifecycle.DefaultComponent.constructor` | src/main/java/net/kuujo/vertigo/component/impl/DefaultComponent.java:114-122 | a new component has no context, collectors or hooks, and is not started |
| `ComponentLifecycle.DefaultComponent.AddHook` | src/main/java/net/kuujo/vertigo/component/impl/DefaultComponent.java:160-167 | the hook is appended at the end. The forwarding hooks are installed on input and output exactly when the list was empty |
| `ComponentLifecycle.DefaultComponent.AddContextHooks` | src/main/java/net/kuujo/vertigo/component/impl/DefaultComponent.java:202-204 | the context's hooks are appended in order. The forwarders are installed once if the list was empty and the context has hooks |
| `ComponentLifecycle.DefaultComponent.Forward` | src/main/java/net/kuujo/vertigo/component/impl/DefaultComponent.java:66-112 | a forwarded event calls every hook, in list order, with the same id |
| `ComponentLifecycle.DefaultComponent.HookStart` | src/main/java/net/kuujo/vertigo/component/impl/DefaultComponent.java:172-176 | every hook's start handler runs, in list order |
| `ComponentLifecycle.DefaultComponent.Setup` | src/main/java/net/kuujo/vertigo/component/impl/DefaultComponent.java:191-243 | the stages run in pipeline order up to the first failure, whose cause is reported. Once the context arrives, new collectors get its hooks in order. `started` becomes true only when every stage succeeds |
| `ComponentLifecycle.DefaultComponent.Start` | src/main/java/net/kuujo/vertigo/component/impl/DefaultComponent.java:251-275 | a started component succeeds without setup, with context, collectors, forwarders and hooks unchanged. Otherwise the setup stages run as in `Setup`, with the same new context, collectors, hook list and forwarders. The start hooks run over the new hook list, in order, only after setup succeeds; a failure reports its cause and runs no start hook |
| `IdGeneration.Advance` | src/main/java/net/kuujo/vertigo/data/impl/SharedDataIdGenerator.java:63-70 | the first call for a name returns 1, a later one the stored value plus 1 (wrapping at the `long` limit). The stored value equals the returned one; other names are untouched |
| `IdGeneration.AfterStored` | src/main/java/net/kuujo/vertigo/data/impl/SharedDataIdGenerator.java:63-70 | after k calls from a stored value s, the stored value is s + k |
| `IdGeneration.IdsCount` | src/main/java/net/kuujo/vertigo/data/impl/SharedDataIdGenerator.java:59-74 | n successive calls from a stored value s return s+1, …, s+n |
| `IdGeneration.FreshIds` | src/main/java/net/kuujo/vertigo/data/impl/SharedDataIdGenerator.java:59-74 | n successive calls on a new name return 1, 2, …, n |
| `IdGeneration.AfterOthers` | src/main/java/net/kuujo/vertigo/data/impl/SharedDataIdGenerator.java:64-69 | calls for one name never change another name's counter |
| `IdGeneration.SharedDataIdGenerator.constructor` | src/main/java/net/kuujo/vertigo/data/impl/SharedDataIdGenerator.java:47-56 | `name()` is the name given at construction |
| `IdGeneration.SharedDataIdGenerator.NextId` | src/main/java/net/kuujo/vertigo/data/impl/SharedDataIdGenerator.java:59-74 | one call performs exactly one `Advance` of the shared map under the generator's name |
| `ComponentInformation.StringAt` | core/src/main/java/net/kuujo/vertigo/component/impl/ComponentInfoImpl.java:64-65 | a string read gives the default when the key is absent, null when it is present with null, and fails on a non-string |
| `ComponentInformation.ObjectAt` | core/src/main/java/net/kuujo/vertigo/component/impl/ComponentInfoImpl.java:66 | an object read gives the default when the key is absent, null when it is null, and fails on a non-object |
| `ComponentInformation.IntegerAt` | core/src/main/java/net/kuujo/vertigo/component/impl/ComponentInfoImpl.java:67 | an integer read gives the default when absent, null when null, and a number narrowed to `int`; it fails on a non-number |
| `ComponentInformation.BooleanAt` | core/src/main/java/net/kuujo/vertigo/component/impl/ComponentInfoImpl.java:68-69 | a boolean read gives null when the key is absent or null, and fails on a non-boolean |
| `ComponentInformation.ArrayAt` | core/src/main/java/net/kuujo/vertigo/component/impl/ComponentInfoImpl.java:80 | an array read gives the default when absent, null when null, and fails on a non-array |
| `ComponentInformation.Parse` | core/src/main/java/net/kuujo/vertigo/component/impl/ComponentInfoImpl.java:63-81 | the JSON constructor succeeds exactly on documents `Admissible` describes. On success it copies main and the two flags, and always gives input and output objects |
| `ComponentInformation.ParseDefaults` | core/src/main/java/net/kuujo/vertigo/component/impl/ComponentInfoImpl.java:64-80 | the defaults: an absent id becomes the fresh id, config `{}`, partitions 1 and resources empty. Input and output become `{}` whether absent or null |
| `ComponentInformation.ParseExplicit` | core/src/main/java/net/kuujo/vertigo/component/impl/ComponentInfoImpl.java:64-67 | present values are kept: a string or null id, an object config, a partition count narrowed to `int` |
| `ComponentInformation.ParseExplicitParts` | core/src/main/java/net/kuujo/vertigo/component/impl/ComponentInfoImpl.java:70-80 | present input and output objects are kept, and the resource set holds exactly the array's items |
| `ComponentInformation.ParseRequired` | core/src/main/java/net/kuujo/vertigo/component/impl/ComponentInfoImpl.java:65-69 | a missing or null main is rejected, as are a missing worker or multi-threaded flag |
| `ComponentInformation.WithResource` | core/src/main/java/net/kuujo/vertigo/component/impl/ComponentInfoImpl.java:172-175 | adding a resource adds that element and changes no other field |
| `ComponentInformation.WithoutResource` | core/src/main/java/net/kuujo/vertigo/component/impl/ComponentInfoImpl.java:178-181 | removing a resource removes that element and changes no other field |
| `ComponentInformation.AddResourceIdempotent` | core/src/main/java/net/kuujo/vertigo/component/impl/ComponentInfoImpl.java:172-175 | adding the same resource twice is adding it once |
| `ComponentInformation.RemoveResourceOnly` | core/src/main/java/net/kuujo/vertigo/component/impl/ComponentInfoImpl.java:178-181 | removal drops that element and keeps every other one |
| `ComponentInformation.AddThenRemove` | core/src/main/java/net/kuujo/vertigo/component/impl/ComponentInfoImpl.java:172-181 | add then remove of a resource equals removing it alone |
| `ComponentInformation.ComponentInfoImpl.constructor` | core/src/main/java/net/kuujo/vertigo/component/impl/ComponentInfoImpl.java:45-46 | the no-argument record has null references, 0 partitions, false flags and no resources |
| `ComponentInformation.ComponentInfoImpl.WithId` | core/src/main/java/net/kuujo/vertigo/component/impl/ComponentInfoImpl.java:48-50 | the id constructor sets only the id |
| `ComponentInformation.ComponentInfoImpl.Copy` | core/src/main/java/net/kuujo/vertigo/component/impl/ComponentInfoImpl.java:52-60 | the copy has the same id, main, config, partitions, flags and resources. Its input and output are null |
| `ComponentInformation.ComponentInfoImpl.SetId` | core/src/main/java/net/kuujo/vertigo/component/impl/ComponentInfoImpl.java:88-92 | changes only the id, which the getter then returns |
| `ComponentInformation.ComponentInfoImpl.SetMain` | core/src/main/java/net/kuujo/vertigo/component/impl/ComponentInfoImpl.java:99-103 | changes only main |
| `ComponentInformation.ComponentInfoImpl.SetConfig` | core/src/main/java/net/kuujo/vertigo/component/impl/ComponentInfoImpl.java:110-114 | changes only config |
| `ComponentInformation.ComponentInfoImpl.SetPartitions` | core/src/main/java/net/kuujo/vertigo/component/impl/ComponentInfoImpl.java:121-125 | changes only partitions |
| `ComponentInformation.ComponentInfoImpl.SetWorker` | core/src/main/java/net/kuujo/vertigo/component/impl/ComponentInfoImpl.java:132-136 | changes only the worker flag |
| `ComponentInformation.ComponentInfoImpl.SetMultiThreaded` | core/src/main/java/net/kuujo/vertigo/component/impl/ComponentInfoImpl.java:143-147 | changes only the multi-threaded flag |
| `ComponentInformation.ComponentInfoImpl.SetInput` | core/src/main/java/net/kuujo/vertigo/component/impl/ComponentInfoImpl.java:154-158 | changes only input |
| `ComponentInformation.ComponentInfoImpl.SetOutput` | core/src/main/java/net/kuujo/vertigo/component/impl/ComponentInfoImpl.java:165-169 | changes only output |
| `ComponentInformation.ComponentInfoImpl.AddResource` | core/src/main/java/net/kuujo/vertigo/component/impl/ComponentInfoImpl.java:171-175 | the record becomes `WithResource` of the old one |
| `ComponentInformation.ComponentInfoImpl.RemoveResource` | core/src/main/java/net/kuujo/vertigo/component/impl/ComponentInfoImpl.java:177-181 | the record becomes `WithoutResource` of the old one |
| `ComponentInformation.ComponentInfoImpl.SetResources` | core/src/main/java/net/kuujo/vertigo/component/impl/ComponentInfoImpl.java:183-193 | the resource set is replaced by exactly the given names; nothing else changes |
| `ComponentInformation.FromJson` | core/src/main/java/net/kuujo/vertigo/component/impl/ComponentInfoImpl.java:63-81 | one fresh UUID is drawn even when `id` is present. The record is built exactly when `Parse` succeeds, and holds its fields; otherwise `Parse`'s exception is reported |
| `VerticleConfiguration.DefaultVerticleConfig.constructor` | src/main/java/net/kuujo/vertigo/network/impl/DefaultVerticleConfig.java:29-36 | a new configuration is neither worker nor multi-threaded, and has no main |
| `VerticleConfiguration.DefaultVerticleConfig.WithMain` | src/main/java/net/kuujo/vertigo/network/impl/DefaultVerticleConfig.java:38-41 | the main constructor sets main, with both flags false |
| `VerticleConfiguration.DefaultVerticleConfig.GetType` | src/main/java/net/kuujo/vertigo/network/impl/DefaultVerticleConfig.java:43-46 | the type is VERTICLE whatever the fields hold |
| `VerticleConfiguration.DefaultVerticleConfig.Kind` | src/main/java/net/kuujo/vertigo/network/impl/DefaultVerticleConfig.java:54-82 | the builders read the verticle kind with this main and these flags |
| `VerticleConfiguration.DefaultVerticleConfig.SetMain` | src/main/java/net/kuujo/vertigo/network/impl/DefaultVerticleConfig.java:48-57 | sets main, which the getter then returns; the flags are unchanged |
| `VerticleConfiguration.DefaultVerticleConfig.SetWorker` | src/main/java/net/kuujo/vertigo/network/impl/DefaultVerticleConfig.java:59-66 | sets worker. Turning it off clears multi-threaded; turning it on leaves it. "Only a worker is multi-threaded" is preserved, and established by turning worker off |
| `VerticleConfiguration.DefaultVerticleConfig.SetMultiThreaded` | src/main/java/net/kuujo/vertigo/network/impl/DefaultVerticleConfig.java:73-77 | sets the flag whatever worker is; the result is coherent only if the flag implies worker |
| `EventBusHooks.Topic` | src/main/java/net/kuujo/vertigo/hooks/EventBusHook.java:46-86 | a topic is `vertigo.hooks.`, then the address, a dot and the event name |
| `EventBusHooks.TopicInjective` | src/main/java/net/kuujo/vertigo/hooks/EventBusHook.java:46-86 | distinct (address, event) pairs publish to distinct topics, so events of one component never share a topic |
| `EventBusHooks.MessagePublication` | src/main/java/net/kuujo/vertigo/hooks/EventBusHook.java:49-82 | a message event publishes the message id to its event's topic |
| `EventBusHooks.EventBusHook.constructor` | src/main/java/net/kuujo/vertigo/hooks/EventBusHook.java:36-39 | a new hook has captured nothing and published nothing |
| `EventBusHooks.EventBusHook.HandleStart` | src/main/java/net/kuujo/vertigo/hooks/EventBusHook.java:41-47 | start captures the component's address and context, and publishes the context to the start topic |
| `EventBusHooks.EventBusHook.HandleMessage` | src/main/java/net/kuujo/vertigo/hooks/EventBusHook.java:49-82 | after start, each of the seven message events publishes the id under the captured address. Before start, it fails on the null event bus and publishes nothing |
| `EventBusHooks.EventBusHook.HandleStop` | src/main/java/net/kuujo/vertigo/hooks/EventBusHook.java:84-87 | stop publishes the context captured at start to the stop topic, whatever component is passed. Before start, it fails on the null event bus and publishes nothing |

## Left out

- The event bus, `UUID.randomUUID()`, `runOnContext` and the 30000 ms timeouts. Sends and publications are logs; every callback is a step method whose outcome is a parameter; ids come from `UuidSource`, which only promises freshness.
- Concurrency and interleaving of callbacks: each step runs atomically, in the order the caller chooses.
- `StreamContextBuilder.WireAll`: `HashMap` iteration order over the input map is any order, chosen with `:|`. The model proves the per-instance input-stream count and freshness. Output-stream counts and the global distinctness of connection ids are proved per input (`WireProducer`, `WireInput`), not restated for the whole network.
- `FieldsSelection.FieldsSelector.GetState`: `HashSet` iteration order is any order.
- `FieldsSelection.FieldsSelector.FromSet`: stores the set as a value. The source keeps a reference to the caller's set (`FieldsSelector.java` line 53), so later changes by the caller show up in the selector; the model does not capture that aliasing.
- `FieldsSelection.FieldsSelector.Select`: `HashMap.hashCode` of the grouped values is a parameter, any function to an `int`.
- `FieldsSelection.FieldsSelector.SetState`: requires that no array element is null. A null element would be added as a null field name, which `set<string>` cannot hold.
- `ClusterCoordination.RemoteClusterCoordinator.Watch`: the registration callback runs within the call; its outcome is a parameter. The watch handler's `ClusterEvent` dispatch and the overloads that return null are not part of this model.
- `ClusterCoordination.RemoteClusterCoordinator.WatchReplied`: requires that the key's map still exists and that the pending id belongs to the entry. The Java callback holds a reference to that map, so this always holds there.
- `ClusterCoordination.RemoteClusterCoordinator.Unwatch`: requires that the key has a map. A key never watched is a `NullPointerException` in the source.
- `ComponentLifecycle.DefaultComponent.AddHook`: requires that the collectors exist when the hook list is empty. Before setup, that case is a `NullPointerException` in the source.
- `ComponentLifecycle.DefaultComponent`: the collectors, acker and coordinator are a generation counter and forwarder counts. `hookStop` is never called in the source and is not modelled. The resume handler fires only at the end of the stage chain, not on resumes the coordinator triggers by itself.
- `ComponentInformation`: the input and output descriptions are kept as the JSON objects they are built from (`InputInfoImpl`/`OutputInfoImpl` are not part of this model). The getters are the fields (`Fields()`).
- `VerticleConfiguration.DefaultVerticleConfig`: the name and network held by the base class are not part of this model.
- `EventBusHooks.EventBusHook`: the instance context is its JSON form; the event bus it captures is implicit in `published`.
- `DefaultBasicExecutor`, `IOContext` and `Filter` are not part of this model. The executor base class (`doExecute`) is not part of this model either: the message id it issues is a parameter.
- Delivery, reliability tracking and auditors' lineage counters are not part of this model. Only their addresses are built.
- `ContextBuilder.BuildContext`: the Java builders returned by `Builder.newBuilder(existing)` are taken to update `existing` in place. `buildContext` discards what they build (`context/impl/ContextBuilder.java` lines 204 and 208), so the linking of ports and connections relies on this. The builder classes are not part of this model.
