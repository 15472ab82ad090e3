# NATS JetStream reconciliation engine, in Dafny

This project models the reconciliation core of an Ansible collection that
manages NATS JetStream streams and consumers: the `NatsJetStream` class in
`plugins/module_utils/nats_common.py`. Each of its four operations ensures
that a stream or consumer is present or absent. An update first forces the
name field of the caller's configuration to the resource id, then fetches the
live configuration (NotFound means "absent"), and builds the target as a
shallow overlay of the desired fields over the live ones. It rejects targets with fields outside the
resource's closed schema, then applies the change unless in dry run. It
reports `{changed: before != after, diff: {before, after}}`.

Layout:

- `values.dfy` (module `Values`): configuration values (`Value`, `Config`),
  `Option`, the `name` field constant and `Lookup` (NotFound as absence).
- `reconcile.dfy` (module `Reconcile`): the pure pieces of the engine
  (`SetName`, `Target`, `Structure`, `Report`). It also holds a specification
  of each operation over a broker snapshot `Store`, returning the outcome and
  the next snapshot (`StreamPresent`, `StreamAbsent`, `ConsumerPresent`,
  `ConsumerAbsent`).
- `jetstream.dfy` (module `JetStream`): the imperative model.
  - `Broker` is the management handle, with `streams` and `consumers` maps
    that its info/update/add/delete methods change.
  - `ConfigDict` is the caller's configuration dict, which the update
    operations overwrite in place.
  - `NatsJetStream` has the constructor and the four operations as methods.
    Each method is proved to compute exactly the matching specification
    function.
- `properties.dfy` (module `Properties`): what the engine promises, proved
  over the specification functions.

The broker fills configurations in with its own defaults. This is the
function-valued fields `Broker.normalizeStream` and
`Broker.normalizeConsumer`, about which nothing is assumed except where a
lemma says so. The schema of a resource kind is its set of field names
(`NatsJetStream.streamSchema` and `NatsJetStream.consumerSchema`). The
broker invariant `Store.Valid` says that every consumer belongs to an
existing stream. It holds because deleting a stream also deletes its
consumers, and creating a consumer on a missing stream raises NotFound. Both
are the broker's behaviour.

## Model

| member | source | states |
|---|---|---|
| `Reconcile.SetName` | plugins/module_utils/nats_common.py:38 | the desired config gets `name` = the resource id, whatever name it had; every other field is kept and no field is added besides `name` |
| `Reconcile.Target` | plugins/module_utils/nats_common.py:47 | target is exactly `config` when the resource was absent; otherwise its keys are the union, every key of `config` takes `config`'s value, keys only in `before` keep theirs |
| `Reconcile.Structure` | plugins/module_utils/nats_common.py:48 | closed schema (extra keys forbidden): accepted unchanged iff every key is a schema field, otherwise rejected with exactly the (non-empty) set of target keys outside the schema |
| `Reconcile.DropStream` | plugins/module_utils/nats_common.py:73 | deleting a stream on the broker removes it and exactly its consumers; other streams and other streams' consumers keep their configs |
| `JetStream.WithReconnectDefault` | plugins/module_utils/nats_common.py:28 | `allow_reconnect` is false when the caller omitted it and keeps the caller's value otherwise; no other connect argument changes and none is added |
| `JetStream.NatsJetStream.constructor` | plugins/module_utils/nats_common.py:23-29 | the stored connect arguments are the caller's with the reconnect default applied |
| `JetStream.NatsJetStream.UpdateStream` | plugins/module_utils/nats_common.py:35-59 | the caller's dict has its `name` overwritten in place; the outcome and the new broker state are exactly `StreamPresent` of the old state; the broker invariant is kept |
| `JetStream.NatsJetStream.DeleteStream` | plugins/module_utils/nats_common.py:61-80 | outcome and new broker state are exactly `StreamAbsent` of the old state; NotFound on delete is swallowed |
| `JetStream.NatsJetStream.UpdateConsumer` | plugins/module_utils/nats_common.py:82-108 | the caller's dict has its `name` overwritten in place; the outcome and the new broker state are exactly `ConsumerPresent` of the old state, with `after` read back after the add |
| `JetStream.NatsJetStream.DeleteConsumer` | plugins/module_utils/nats_common.py:110-129 | outcome and new broker state are exactly `ConsumerAbsent` of the old state; NotFound on delete is swallowed |
| `JetStream.Broker.StreamInfo` | plugins/module_utils/nats_common.py:42-45 | returns the stored stream config, or None exactly when the stream does not exist (NotFound) |
| `JetStream.Broker.UpdateStream` | plugins/module_utils/nats_common.py:51 | an existing stream gets the broker's completion of the config, which is returned; a missing one yields None (NotFound) and nothing changes |
| `JetStream.Broker.AddStream` | plugins/module_utils/nats_common.py:53 | creates the missing stream with the broker's completion of the config and returns it |
| `JetStream.Broker.DeleteStream` | plugins/module_utils/nats_common.py:73 | reports whether the stream existed; the new state is `DropStream` of the old one |
| `JetStream.Broker.ConsumerInfo` | plugins/module_utils/nats_common.py:89-92 | returns the stored consumer config, or None exactly when it does not exist (NotFound) |
| `JetStream.Broker.AddConsumer` | plugins/module_utils/nats_common.py:97 | creates or replaces the consumer when its stream exists; otherwise reports NotFound and nothing changes |
| `JetStream.Broker.DeleteConsumer` | plugins/module_utils/nats_common.py:122 | reports whether the consumer existed; afterwards it is absent and nothing else changed |
| `Properties.MergeExample` | plugins/module_utils/nats_common.py:47 | the overlay of {b:3, c:4} on {a:1, b:2} is {a:1, b:3, c:4} |
| `Properties.TargetIsNamedById` | plugins/module_utils/nats_common.py:38-47 | the merged target always has `name` equal to the resource id and carries every other desired field |
| `Properties.TargetIdempotent` | plugins/module_utils/nats_common.py:47 | overlaying the same desired fields twice equals overlaying them once |
| `Properties.StreamPresentRejectsUnknownFields` | plugins/module_utils/nats_common.py:47-53 | the operation raises iff the target has a key outside the schema; the error names exactly those keys and the broker is unchanged |
| `Properties.ConsumerPresentRejectsUnknownFields` | plugins/module_utils/nats_common.py:94-97 | an unknown key raises the schema error with the broker unchanged; NotFound is raised iff the target is valid, not dry run, and the stream is missing; whenever it raises, the broker is unchanged |
| `Properties.DryRunLeavesStoreUnchanged` | plugins/module_utils/nats_common.py:47-80 | in dry run none of the four operations changes the broker, and an update's `after` is the merged target |
| `Properties.ChangedIsBeforeDiffersFromAfter` | plugins/module_utils/nats_common.py:56-129 | in all four operations `before` is the state found, `changed` iff `before != after`; deletes report `after` = None and `changed` iff the resource existed |
| `Properties.StreamPresentApplies` | plugins/module_utils/nats_common.py:49-54 | without dry run the stream exists afterwards, holding the completion of the target; `after` is that stored config; other streams and all consumers are unchanged |
| `Properties.ConsumerPresentApplies` | plugins/module_utils/nats_common.py:96-103 | without dry run a returned result means the stream existed, the consumer now holds the completion of the target, and `after` is a fresh read of it; nothing else changes |
| `Properties.StreamAbsentConverges` | plugins/module_utils/nats_common.py:71-75 | after a real delete the stream and its consumers are absent; other streams and other streams' consumers are untouched |
| `Properties.ConsumerAbsentConverges` | plugins/module_utils/nats_common.py:120-124 | after a real delete the consumer is absent; every other consumer and every stream is untouched |
| `Properties.StreamAbsentOnMissingIsNoChange` | plugins/module_utils/nats_common.py:61-80 | deleting a missing stream succeeds with `changed = false`, before = after = None, and a valid broker unchanged |
| `Properties.ConsumerAbsentOnMissingIsNoChange` | plugins/module_utils/nats_common.py:110-129 | deleting a missing consumer succeeds with `changed = false`, before = after = None, and the broker unchanged |
| `Properties.OperationsPreserveValid` | plugins/module_utils/nats_common.py:35-129 | each of the four operations keeps every consumer attached to an existing stream |
| `Properties.StreamPresentIdempotent` | plugins/module_utils/nats_common.py:35-59 | if the broker only fills in defaults, a second identical ensure-present reports `changed = false`, with the same `after` and the broker unchanged |
| `Properties.ConsumerPresentIdempotent` | plugins/module_utils/nats_common.py:82-108 | the same for consumers |
| `Properties.OverlayOnStoredIsStored` | plugins/module_utils/nats_common.py:47 | overlaying desired fields the stored config already carries gives the stored config back |
| `Properties.DryRunPredictsWithoutDefaults` | plugins/module_utils/nats_common.py:49-54 | if the broker stores exactly what it is given, a dry run returns the real run's outcome, and the real run only stores the predicted `after` |
| `Properties.DryRunRetentionScenario` | plugins/module_utils/nats_common.py:41-58 | a dry-run retention change on a live stream reports changed with the new retention as `after`, while the broker keeps the old retention |

The four specification functions `Reconcile.StreamPresent`
(plugins/module_utils/nats_common.py:35-59), `Reconcile.StreamAbsent` (61-80),
`Reconcile.ConsumerPresent` (82-108) and `Reconcile.ConsumerAbsent` (110-129)
carry no contract of their own. They are the partners of the four
`NatsJetStream` methods, and the `Properties` lemmas above state what they
promise.

## Left out

- Connecting (`_connect`, `nats.connect`, `jetstream()`) is not modelled, and neither is the transport. Each operation receives the management handle `Broker` as a parameter, and the connect arguments are only stored.
- async/await is not modelled: each operation is a sequential series of broker calls with no concurrency.
- Exceptions other than NotFound are not modelled: connection, timeout and server errors simply propagate in the source. This includes a broker that refuses an update of an immutable field or an incompatible consumer change.
- Races between the info call and the apply call, from concurrent invocations, are not modelled. `Broker.AddStream` therefore requires the stream to be absent, which holds because the engine calls it only after the update reported NotFound.
- cattrs is modelled only as a closed set of field names. Per-field type checking and the concrete field lists of the stream and consumer records are left out. `Structure` passes the mapping through unchanged, so the record round trip is the identity in this model.
- Value equality is structural. Python's cross-type equality (`1 == 1.0 == True`) is not modelled, and floats are mathematical reals.
- The source's `Result.diff` may be None by its type, but the four operations always fill it, so `Result.diff` is a plain `Diff`.
- Aliasing is not modelled. When the resource is absent, the source's `state_after` is the caller's own dict object; the model uses values.
- The Ansible front ends are outside this model: `plugins/modules/stream.py` and `plugins/modules/consumer.py` parse arguments, choose present or absent, map check mode to dry run and emit JSON.
- Deleting a stream also removes its consumers on the broker. The "nothing else is touched" property therefore covers other streams and the consumers of other streams.
- The `dry_run=False` default of the four operations is not modelled: `dryRun` is always passed explicitly, as both front ends always pass it.
