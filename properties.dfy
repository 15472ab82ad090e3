/** Properties of the reconciliation engine, stated over the specification
    in module Reconcile. */
module Properties {
  import opened Values
  import opened Reconcile

  /** The overlay of {b: 3, c: 4} over {a: 1, b: 2} is {a: 1, b: 3, c: 4}. */
  lemma MergeExample()
    ensures Target(Some(map["a" := Int(1), "b" := Int(2)]), map["b" := Int(3), "c" := Int(4)])
         == map["a" := Int(1), "b" := Int(3), "c" := Int(4)]
  {
  }

  /** Whatever name the caller supplied, the target of an update is named
      after the resource id, and carries every other desired field. */
  lemma TargetIsNamedById(before: Option<Config>, config: Config, id: string)
    ensures var target := Target(before, SetName(config, id));
      && NAME_FIELD in target && target[NAME_FIELD] == Str(id)
      && forall k :: k in config && k != NAME_FIELD ==> k in target && target[k] == config[k]
  {
  }

  /** Overlaying the same desired fields a second time changes nothing. */
  lemma TargetIdempotent(before: Option<Config>, config: Config)
    ensures Target(Some(Target(before, config)), config) == Target(before, config)
  {
  }

  /** A target with a key outside the schema is rejected with exactly those
      keys, before anything is applied: the broker is unchanged. */
  lemma StreamPresentRejectsUnknownFields(s: Store, normalize: Config -> Config, schema: set<string>,
                                          stream: string, config: Config, dryRun: bool)
    ensures var target := Target(Lookup(s.streams, stream), SetName(config, stream));
      var step := StreamPresent(s, normalize, schema, stream, config, dryRun);
      && (step.outcome.Raised? <==> !(target.Keys <= schema))
      && (step.outcome.Raised? ==> step.outcome.error == SchemaError(target.Keys - schema) && step.store == s)
  {
  }

  /** The same for consumers; the schema check comes before the stream's
      existence is relied upon, and a creation refused with NotFound leaves
      the broker unchanged as well. */
  lemma ConsumerPresentRejectsUnknownFields(s: Store, normalize: Config -> Config, schema: set<string>,
                                            stream: string, consumer: string, config: Config, dryRun: bool)
    ensures var target := Target(Lookup(s.consumers, (stream, consumer)), SetName(config, consumer));
      var step := ConsumerPresent(s, normalize, schema, stream, consumer, config, dryRun);
      && (!(target.Keys <= schema) ==> step.outcome == Raised(SchemaError(target.Keys - schema)) && step.store == s)
      && (step.outcome.Raised? && step.outcome.error.NotFound? <==> target.Keys <= schema && !dryRun && stream !in s.streams)
      && (step.outcome.Raised? ==> step.store == s)
  {
  }

  /** Dry run mutates nothing in any of the four operations, and an update's
      predicted after-state is the merged target. */
  lemma DryRunLeavesStoreUnchanged(s: Store, normalizeStream: Config -> Config, normalizeConsumer: Config -> Config,
                                   streamSchema: set<string>, consumerSchema: set<string>,
                                   stream: string, consumer: string, config: Config)
    ensures StreamPresent(s, normalizeStream, streamSchema, stream, config, true).store == s
    ensures StreamAbsent(s, stream, true).store == s
    ensures ConsumerPresent(s, normalizeConsumer, consumerSchema, stream, consumer, config, true).store == s
    ensures ConsumerAbsent(s, stream, consumer, true).store == s
    ensures var step := StreamPresent(s, normalizeStream, streamSchema, stream, config, true);
      step.outcome.Returned? ==>
        step.outcome.result.diff.after == Some(Target(Lookup(s.streams, stream), SetName(config, stream)))
    ensures var step := ConsumerPresent(s, normalizeConsumer, consumerSchema, stream, consumer, config, true);
      step.outcome.Returned? ==>
        step.outcome.result.diff.after == Some(Target(Lookup(s.consumers, (stream, consumer)), SetName(config, consumer)))
  {
  }

  /** In every operation, `before` is the state found at the start, `changed`
      is exactly `before != after`, and deletes always report `after` absent. */
  lemma ChangedIsBeforeDiffersFromAfter(s: Store, normalizeStream: Config -> Config, normalizeConsumer: Config -> Config,
                                        streamSchema: set<string>, consumerSchema: set<string>,
                                        stream: string, consumer: string, config: Config, dryRun: bool)
    ensures var o := StreamPresent(s, normalizeStream, streamSchema, stream, config, dryRun).outcome;
      o.Returned? ==>
        && o.result.diff.before == Lookup(s.streams, stream)
        && (o.result.changed <==> o.result.diff.before != o.result.diff.after)
    ensures var o := ConsumerPresent(s, normalizeConsumer, consumerSchema, stream, consumer, config, dryRun).outcome;
      o.Returned? ==>
        && o.result.diff.before == Lookup(s.consumers, (stream, consumer))
        && (o.result.changed <==> o.result.diff.before != o.result.diff.after)
    ensures var o := StreamAbsent(s, stream, dryRun).outcome;
      o.Returned? && o.result.diff == Diff(Lookup(s.streams, stream), None)
      && (o.result.changed <==> stream in s.streams)
    ensures var o := ConsumerAbsent(s, stream, consumer, dryRun).outcome;
      o.Returned? && o.result.diff == Diff(Lookup(s.consumers, (stream, consumer)), None)
      && (o.result.changed <==> (stream, consumer) in s.consumers)
  {
  }

  /** Applying a stream (update, or create when absent) leaves it present
      with the broker's stored configuration as `after`; nothing else moves. */
  lemma StreamPresentApplies(s: Store, normalize: Config -> Config, schema: set<string>,
                             stream: string, config: Config)
    ensures var target := Target(Lookup(s.streams, stream), SetName(config, stream));
      var step := StreamPresent(s, normalize, schema, stream, config, false);
      step.outcome.Returned? ==>
        && stream in step.store.streams
        && step.store.streams[stream] == normalize(target)
        && step.outcome.result.diff.after == Some(step.store.streams[stream])
        && (forall name :: name != stream ==> Lookup(step.store.streams, name) == Lookup(s.streams, name))
        && step.store.consumers == s.consumers
  {
  }

  /** Applying a consumer on an existing stream leaves it present, and
      `after` is what a fresh read of it returns. */
  lemma ConsumerPresentApplies(s: Store, normalize: Config -> Config, schema: set<string>,
                               stream: string, consumer: string, config: Config)
    ensures var target := Target(Lookup(s.consumers, (stream, consumer)), SetName(config, consumer));
      var step := ConsumerPresent(s, normalize, schema, stream, consumer, config, false);
      step.outcome.Returned? ==>
        && stream in s.streams
        && (stream, consumer) in step.store.consumers
        && step.store.consumers[(stream, consumer)] == normalize(target)
        && step.outcome.result.diff.after == Lookup(step.store.consumers, (stream, consumer))
        && (forall key :: key != (stream, consumer) ==> Lookup(step.store.consumers, key) == Lookup(s.consumers, key))
        && step.store.streams == s.streams
  {
  }

  /** Deleting a stream converges to its absence; other streams and the
      consumers of other streams are untouched. */
  lemma StreamAbsentConverges(s: Store, stream: string)
    ensures var r := StreamAbsent(s, stream, false).store;
      && stream !in r.streams
      && (forall name :: name != stream ==> Lookup(r.streams, name) == Lookup(s.streams, name))
      && (forall key: (string, string) :: key.0 != stream ==> Lookup(r.consumers, key) == Lookup(s.consumers, key))
      && (forall key: (string, string) :: key.0 == stream ==> key !in r.consumers)
  {
  }

  /** Deleting a consumer converges to its absence; nothing else moves. */
  lemma ConsumerAbsentConverges(s: Store, stream: string, consumer: string)
    ensures var r := ConsumerAbsent(s, stream, consumer, false).store;
      && (stream, consumer) !in r.consumers
      && (forall key :: key != (stream, consumer) ==> Lookup(r.consumers, key) == Lookup(s.consumers, key))
      && r.streams == s.streams
  {
  }

  /** Deleting a stream that does not exist succeeds, reports no change and
      leaves a valid broker exactly as it was, in dry run or not. */
  lemma StreamAbsentOnMissingIsNoChange(s: Store, stream: string, dryRun: bool)
    requires s.Valid()
    requires stream !in s.streams
    ensures var step := StreamAbsent(s, stream, dryRun);
      step == Step(Returned(Result(false, Diff(None, None))), s)
  {
  }

  /** Deleting a consumer that does not exist succeeds and reports no change. */
  lemma ConsumerAbsentOnMissingIsNoChange(s: Store, stream: string, consumer: string, dryRun: bool)
    requires (stream, consumer) !in s.consumers
    ensures var step := ConsumerAbsent(s, stream, consumer, dryRun);
      step == Step(Returned(Result(false, Diff(None, None))), s)
  {
  }

  /** Every operation keeps each consumer attached to an existing stream. */
  lemma OperationsPreserveValid(s: Store, normalizeStream: Config -> Config, normalizeConsumer: Config -> Config,
                                streamSchema: set<string>, consumerSchema: set<string>,
                                stream: string, consumer: string, config: Config, dryRun: bool)
    requires s.Valid()
    ensures StreamPresent(s, normalizeStream, streamSchema, stream, config, dryRun).store.Valid()
    ensures StreamAbsent(s, stream, dryRun).store.Valid()
    ensures ConsumerPresent(s, normalizeConsumer, consumerSchema, stream, consumer, config, dryRun).store.Valid()
    ensures ConsumerAbsent(s, stream, consumer, dryRun).store.Valid()
  {
  }

  /** The broker only adds defaults: it keeps the fields it was given, its
      own output is already complete, and it stores only schema fields. */
  ghost predicate FillsDefaults(normalize: Config -> Config, schema: set<string>)
  {
    && (forall c :: Extends(normalize(c), c))
    && (forall c {:trigger normalize(normalize(c))} :: normalize(normalize(c)) == normalize(c))
    && (forall c: Config :: c.Keys <= schema ==> normalize(c).Keys <= schema)
  }

  /** Ensuring a stream present twice with the same configuration reports no
      change the second time, with the same `after` and the same broker. */
  lemma {:induction false} StreamPresentIdempotent(s: Store, normalize: Config -> Config, schema: set<string>,
                                                   stream: string, config: Config)
    requires FillsDefaults(normalize, schema)
    requires StreamPresent(s, normalize, schema, stream, config, false).outcome.Returned?
    ensures var first := StreamPresent(s, normalize, schema, stream, config, false);
      var second := StreamPresent(first.store, normalize, schema, stream, config, false);
      && second.outcome.Returned?
      && !second.outcome.result.changed
      && second.outcome.result.diff.after == first.outcome.result.diff.after
      && second.store == first.store
  {
    var named := SetName(config, stream);
    var target := Target(Lookup(s.streams, stream), named);
    var stored := normalize(target);
    var first := StreamPresent(s, normalize, schema, stream, config, false);
    assert first.store.streams == s.streams[stream := stored];
    OverlayOnStoredIsStored(target, named, stored);
    assert normalize(stored) == stored;
    assert first.store.streams[stream := stored] == first.store.streams;
  }

  /** The same for consumers, on a stream that exists. */
  lemma {:induction false} ConsumerPresentIdempotent(s: Store, normalize: Config -> Config, schema: set<string>,
                                                     stream: string, consumer: string, config: Config)
    requires FillsDefaults(normalize, schema)
    requires ConsumerPresent(s, normalize, schema, stream, consumer, config, false).outcome.Returned?
    ensures var first := ConsumerPresent(s, normalize, schema, stream, consumer, config, false);
      var second := ConsumerPresent(first.store, normalize, schema, stream, consumer, config, false);
      && second.outcome.Returned?
      && !second.outcome.result.changed
      && second.outcome.result.diff.after == first.outcome.result.diff.after
      && second.store == first.store
  {
    var key := (stream, consumer);
    var named := SetName(config, consumer);
    var target := Target(Lookup(s.consumers, key), named);
    var stored := normalize(target);
    var first := ConsumerPresent(s, normalize, schema, stream, consumer, config, false);
    assert first.store.consumers == s.consumers[key := stored];
    OverlayOnStoredIsStored(target, named, stored);
    assert normalize(stored) == stored;
    assert first.store.consumers[key := stored] == first.store.consumers;
  }

  /** Re-overlaying the desired fields on a stored configuration that
      extends the target (which already carries them) gives it back. */
  lemma OverlayOnStoredIsStored(target: Config, named: Config, stored: Config)
    requires forall k :: k in named ==> k in target && target[k] == named[k]
    requires Extends(stored, target)
    ensures Target(Some(stored), named) == stored
  {
  }

  /** When the broker stores exactly what it is given, a dry run predicts
      the real outcome: same result, and the real run's only effect is to
      store the predicted configuration. */
  lemma DryRunPredictsWithoutDefaults(s: Store, normalize: Config -> Config, schema: set<string>,
                                      stream: string, config: Config)
    requires forall c :: normalize(c) == c
    ensures var predicted := StreamPresent(s, normalize, schema, stream, config, true);
      var applied := StreamPresent(s, normalize, schema, stream, config, false);
      && predicted.outcome == applied.outcome
      && (applied.outcome.Returned? ==>
            applied.store == s.(streams := s.streams[stream := predicted.outcome.result.diff.after.value]))
  {
  }

  /** A dry run that changes the retention of an existing stream reports the
      change with the new retention as `after`, and the broker still holds
      the old one. */
  lemma DryRunRetentionScenario(normalize: Config -> Config, schema: set<string>)
    requires {NAME_FIELD, "retention"} <= schema
    ensures var live := map[NAME_FIELD := Str("s1"), "retention" := Str("limits")];
      var s := Store(map["s1" := live], map[]);
      var step := StreamPresent(s, normalize, schema, "s1", map["retention" := Str("interest")], true);
      && step.outcome.Returned?
      && step.outcome.result.changed
      && step.outcome.result.diff.before == Some(live)
      && step.outcome.result.diff.after == Some(live["retention" := Str("interest")])
      && step.store.streams["s1"] == live
  {
    var live := map[NAME_FIELD := Str("s1"), "retention" := Str("limits")];
    var config := map["retention" := Str("interest")];
    var target := Target(Some(live), SetName(config, "s1"));
    assert target.Keys == {NAME_FIELD, "retention"};
    assert target == live["retention" := Str("interest")];
    assert target["retention"] != live["retention"];
  }
}
