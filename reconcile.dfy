/** The reconciliation engine as a specification over a snapshot of the
    broker: for each of the four "ensure state" operations, the result it
    reports and the broker state it leaves behind. The imperative model in
    module JetStream is proved to compute exactly these. */
module Reconcile {
  import opened Values

  /** The broker state the engine can observe: stream configurations by
      stream name, consumer configurations by (stream, consumer). */
  datatype Store = Store(streams: map<string, Config>, consumers: map<(string, string), Config>)
  {
    /** Every consumer belongs to a stream that exists. */
    ghost predicate Valid()
    {
      forall key :: key in consumers ==> key.0 in streams
    }
  }

  /** The before/after pair reported to the caller. */
  datatype Diff = Diff(before: Option<Config>, after: Option<Config>)

  /** What a successful operation returns. */
  datatype Result = Result(changed: bool, diff: Diff)

  /** Errors that abort an operation and reach the caller. */
  datatype Error =
    | SchemaError(extra: set<string>)  // the closed schema forbids these keys
    | NotFound                         // add_consumer on a stream that does not exist

  /** An operation either returns a result or raises an error. */
  datatype Outcome = Returned(result: Result) | Raised(error: Error)

  /** An outcome together with the broker state after the operation. */
  datatype Step = Step(outcome: Outcome, store: Store)

  /** Outcome of structuring a mapping into a closed configuration record. */
  datatype Structured = Accepted(config: Config) | Rejected(extra: set<string>)

  /** The caller's configuration with its name field forced to the resource id. */
  function SetName(config: Config, id: string): (r: Config)
    ensures r.Keys == config.Keys + {NAME_FIELD}
    ensures r[NAME_FIELD] == Str(id)
    ensures forall k :: k in config && k != NAME_FIELD ==> r[k] == config[k]
  {
    config[NAME_FIELD := Str(id)]
  }

  /** The target configuration: the desired one when the resource is absent,
      otherwise the shallow overlay of the desired fields over the current ones. */
  function Target(before: Option<Config>, config: Config): (r: Config)
    ensures before.None? ==> r == config
    ensures before.Some? ==> r.Keys == before.value.Keys + config.Keys
    ensures forall k :: k in config ==> r[k] == config[k]
    ensures before.Some? ==> forall k :: k in before.value && k !in config ==> r[k] == before.value[k]
  {
    if before.None? then config else before.value + config
  }

  /** Structuring with extra keys forbidden: accepted unchanged exactly when
      every key is a field of the schema, otherwise rejected with the
      offending keys. */
  function Structure(target: Config, schema: set<string>): (r: Structured)
    ensures r.Accepted? <==> target.Keys <= schema
    ensures r.Accepted? ==> r.config == target
    ensures r.Rejected? ==> r.extra == target.Keys - schema && r.extra != {}
  {
    if target.Keys <= schema then Accepted(target)
    else
      // a key outside the schema witnesses that the rejected set is not empty
      var k :| k in target.Keys && k !in schema;
      assert k in target.Keys - schema;
      Rejected(target.Keys - schema)
  }

  /** The reported result: changed exactly when before and after differ. */
  function Report(before: Option<Config>, after: Option<Config>): Result
  {
    Result(before != after, Diff(before, after))
  }

  /** The store with a stream and all of its consumers removed. */
  function DropStream(s: Store, stream: string): (r: Store)
    ensures stream !in r.streams
    ensures forall name :: name in s.streams && name != stream ==> name in r.streams && r.streams[name] == s.streams[name]
    ensures r.streams.Keys <= s.streams.Keys
    ensures forall key :: key in r.consumers <==> key in s.consumers && key.0 != stream
    ensures forall key :: key in r.consumers ==> r.consumers[key] == s.consumers[key]
  {
    Store(s.streams - {stream}, map key | key in s.consumers && key.0 != stream :: s.consumers[key])
  }

  /** Ensure a stream is present. `normalize` is the broker's completion of
      a stored configuration with its defaults. */
  function StreamPresent(s: Store, normalize: Config -> Config, schema: set<string>,
                         stream: string, config: Config, dryRun: bool): Step
  {
    var before := Lookup(s.streams, stream);
    match Structure(Target(before, SetName(config, stream)), schema)
    case Rejected(extra) => Step(Raised(SchemaError(extra)), s)
    case Accepted(target) =>
      if dryRun then Step(Returned(Report(before, Some(target))), s)
      else
        var stored := normalize(target);
        Step(Returned(Report(before, Some(stored))), s.(streams := s.streams[stream := stored]))
  }

  /** Ensure a stream is absent. */
  function StreamAbsent(s: Store, stream: string, dryRun: bool): Step
  {
    var before := Lookup(s.streams, stream);
    Step(Returned(Report(before, None)), if dryRun then s else DropStream(s, stream))
  }

  /** Ensure a consumer is present. Creation on a stream that does not exist
      raises NotFound. */
  function ConsumerPresent(s: Store, normalize: Config -> Config, schema: set<string>,
                           stream: string, consumer: string, config: Config, dryRun: bool): Step
  {
    var before := Lookup(s.consumers, (stream, consumer));
    match Structure(Target(before, SetName(config, consumer)), schema)
    case Rejected(extra) => Step(Raised(SchemaError(extra)), s)
    case Accepted(target) =>
      if dryRun then Step(Returned(Report(before, Some(target))), s)
      else if stream !in s.streams then Step(Raised(NotFound), s)
      else
        var stored := normalize(target);
        Step(Returned(Report(before, Some(stored))),
             s.(consumers := s.consumers[(stream, consumer) := stored]))
  }

  /** Ensure a consumer is absent. */
  function ConsumerAbsent(s: Store, stream: string, consumer: string, dryRun: bool): Step
  {
    var before := Lookup(s.consumers, (stream, consumer));
    Step(Returned(Report(before, None)),
         if dryRun then s else s.(consumers := s.consumers - {(stream, consumer)}))
  }
}
