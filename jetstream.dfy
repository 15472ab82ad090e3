/** The JetStream reconciliation engine as the source writes it: an object
    holding connection arguments whose four operations issue sequential
    calls on a broker management handle and update the caller's
    configuration dictionary in place. */
module JetStream {
  import opened Values
  import opened Reconcile

  const ALLOW_RECONNECT: string := "allow_reconnect"

  /** Connection arguments with automatic reconnection off unless the
      caller set it explicitly. */
  function WithReconnectDefault(args: map<string, Value>): (r: map<string, Value>)
    ensures r.Keys == args.Keys + {ALLOW_RECONNECT}
    ensures ALLOW_RECONNECT in args ==> r[ALLOW_RECONNECT] == args[ALLOW_RECONNECT]
    ensures ALLOW_RECONNECT !in args ==> r[ALLOW_RECONNECT] == Bool(false)
    ensures forall k :: k in args && k != ALLOW_RECONNECT ==> r[k] == args[k]
  {
    args[ALLOW_RECONNECT := if ALLOW_RECONNECT in args then args[ALLOW_RECONNECT] else Bool(false)]
  }

  /** A caller-owned configuration dictionary, updated in place. */
  class ConfigDict {
    var entries: Config

    constructor (entries: Config)
      ensures this.entries == entries
    {
      this.entries := entries;
    }
  }

  /** The broker's management handle. NotFound is absence of the key; the
      configurations the broker stores are completed with its defaults by
      `normalizeStream` and `normalizeConsumer`. */
  class Broker {
    var streams: map<string, Config>
    var consumers: map<(string, string), Config>
    const normalizeStream: Config -> Config
    const normalizeConsumer: Config -> Config

    function Snapshot(): Store
      reads this
    {
      Store(streams, consumers)
    }

    ghost predicate Valid()
      reads this
    {
      Snapshot().Valid()
    }

    constructor (normalizeStream: Config -> Config, normalizeConsumer: Config -> Config)
      ensures Valid() && streams == map[] && consumers == map[]
      ensures this.normalizeStream == normalizeStream && this.normalizeConsumer == normalizeConsumer
    {
      streams, consumers := map[], map[];
      this.normalizeStream, this.normalizeConsumer := normalizeStream, normalizeConsumer;
    }

    /** The stored configuration of a stream, or None (NotFound). */
    method StreamInfo(stream: string) returns (info: Option<Config>)
      ensures info.Some? <==> stream in streams
      ensures info.Some? ==> info.value == streams[stream]
    {
      info := Lookup(streams, stream);
    }

    /** Update an existing stream; None (NotFound) when it does not exist. */
    method UpdateStream(stream: string, config: Config) returns (info: Option<Config>)
      modifies this
      ensures info.Some? <==> stream in old(streams)
      ensures streams == if info.Some? then old(streams)[stream := normalizeStream(config)] else old(streams)
      ensures info.Some? ==> info.value == streams[stream]
      ensures consumers == old(consumers)
    {
      if stream in streams {
        streams := streams[stream := normalizeStream(config)];
        info := Some(streams[stream]);
      } else {
        info := None;
      }
    }

    /** Create a stream that does not exist yet. */
    method AddStream(stream: string, config: Config) returns (info: Config)
      requires stream !in streams
      modifies this
      ensures streams == old(streams)[stream := normalizeStream(config)]
      ensures info == streams[stream]
      ensures consumers == old(consumers)
    {
      streams := streams[stream := normalizeStream(config)];
      info := streams[stream];
    }

    /** Delete a stream together with its consumers; false (NotFound) when
      it does not exist. */
    method DeleteStream(stream: string) returns (found: bool)
      modifies this
      ensures found <==> stream in old(streams)
      ensures Snapshot() == DropStream(old(Snapshot()), stream)
    {
      found := stream in streams;
      var dropped := DropStream(Snapshot(), stream);
      streams, consumers := dropped.streams, dropped.consumers;
    }

    /** The stored configuration of a consumer, or None (NotFound). */
    method ConsumerInfo(stream: string, consumer: string) returns (info: Option<Config>)
      ensures info.Some? <==> (stream, consumer) in consumers
      ensures info.Some? ==> info.value == consumers[(stream, consumer)]
    {
      info := Lookup(consumers, (stream, consumer));
    }

    /** Create or replace a consumer; false (NotFound) when the stream does
      not exist. */
    method AddConsumer(stream: string, consumer: string, config: Config) returns (found: bool)
      modifies this
      ensures found <==> stream in streams
      ensures consumers == if found then old(consumers)[(stream, consumer) := normalizeConsumer(config)] else old(consumers)
      ensures streams == old(streams)
    {
      found := stream in streams;
      if found {
        consumers := consumers[(stream, consumer) := normalizeConsumer(config)];
      }
    }

    /** Delete a consumer; false (NotFound) when it does not exist. */
    method DeleteConsumer(stream: string, consumer: string) returns (found: bool)
      modifies this
      ensures found <==> (stream, consumer) in old(consumers)
      ensures consumers == old(consumers) - {(stream, consumer)}
      ensures streams == old(streams)
    {
      found := (stream, consumer) in consumers;
      consumers := consumers - {(stream, consumer)};
    }
  }

  /** The reconciliation engine. `streamSchema` and `consumerSchema` are the
      field names of the stream and consumer configuration records that
      targets are structured into. */
  class NatsJetStream {
    var connectArgs: map<string, Value>
    const streamSchema: set<string>
    const consumerSchema: set<string>

    constructor (connectArgs: map<string, Value>, streamSchema: set<string>, consumerSchema: set<string>)
      ensures this.connectArgs == WithReconnectDefault(connectArgs)
      ensures this.streamSchema == streamSchema && this.consumerSchema == consumerSchema
    {
      this.connectArgs := WithReconnectDefault(connectArgs);
      this.streamSchema, this.consumerSchema := streamSchema, consumerSchema;
    }

    /** Ensure a stream is present with the given configuration. */
    method UpdateStream(js: Broker, stream: string, config: ConfigDict, dryRun: bool) returns (res: Outcome)
      requires js.Valid()
      modifies js, config
      ensures js.Valid()
      ensures config.entries == SetName(old(config.entries), stream)
      ensures Step(res, js.Snapshot())
           == StreamPresent(old(js.Snapshot()), js.normalizeStream, streamSchema, stream, old(config.entries), dryRun)
    {
      config.entries := config.entries[NAME_FIELD := Str(stream)];
      var before := js.StreamInfo(stream);
      var target := if before.None? then config.entries else before.value + config.entries;
      var structured := Structure(target, streamSchema);
      if structured.Rejected? {
        return Raised(SchemaError(structured.extra));
      }
      var after := Some(structured.config);
      if !dryRun {
        var info := js.UpdateStream(stream, structured.config);
        if info.None? {
          var added := js.AddStream(stream, structured.config);
          info := Some(added);
        }
        after := info;
      }
      res := Returned(Result(before != after, Diff(before, after)));
    }

    /** Ensure a stream is absent. */
    method DeleteStream(js: Broker, stream: string, dryRun: bool) returns (res: Outcome)
      requires js.Valid()
      modifies js
      ensures js.Valid()
      ensures Step(res, js.Snapshot()) == StreamAbsent(old(js.Snapshot()), stream, dryRun)
    {
      var before := js.StreamInfo(stream);
      var after := None;
      if !dryRun {
        var _ := js.DeleteStream(stream);
      }
      res := Returned(Result(before != after, Diff(before, after)));
    }

    /** Ensure a consumer is present with the given configuration. The
      after-state is read back from the broker rather than taken from the
      creation call. */
    method UpdateConsumer(js: Broker, stream: string, consumer: string, config: ConfigDict, dryRun: bool)
      returns (res: Outcome)
      requires js.Valid()
      modifies js, config
      ensures js.Valid()
      ensures config.entries == SetName(old(config.entries), consumer)
      ensures Step(res, js.Snapshot())
           == ConsumerPresent(old(js.Snapshot()), js.normalizeConsumer, consumerSchema, stream, consumer,
                              old(config.entries), dryRun)
    {
      config.entries := config.entries[NAME_FIELD := Str(consumer)];
      var before := js.ConsumerInfo(stream, consumer);
      var target := if before.None? then config.entries else before.value + config.entries;
      var structured := Structure(target, consumerSchema);
      if structured.Rejected? {
        return Raised(SchemaError(structured.extra));
      }
      var after := Some(structured.config);
      if !dryRun {
        var found := js.AddConsumer(stream, consumer, structured.config);
        if !found {
          return Raised(NotFound);
        }
        after := js.ConsumerInfo(stream, consumer);
      }
      res := Returned(Result(before != after, Diff(before, after)));
    }

    /** Ensure a consumer is absent. */
    method DeleteConsumer(js: Broker, stream: string, consumer: string, dryRun: bool) returns (res: Outcome)
      requires js.Valid()
      modifies js
      ensures js.Valid()
      ensures Step(res, js.Snapshot()) == ConsumerAbsent(old(js.Snapshot()), stream, consumer, dryRun)
    {
      var before := js.ConsumerInfo(stream, consumer);
      var after := None;
      if !dryRun {
        var _ := js.DeleteConsumer(stream, consumer);
      }
      res := Returned(Result(before != after, Diff(before, after)));
    }
  }
}
