/** The trigger configurator (shell/setup_s3_trigger.py): it grants S3 the
    right to invoke each Lambda function and appends one event-notification
    rule per event tuple to the bucket's notification configuration, after
    clearing the configurations of the environment's input bucket and of the
    common bucket.

    The S3 side is a map from bucket name to its stored notification
    configuration (a bucket exists when it is a key of the map); the Lambda
    side is a map from function name to ARN together with a grant table keyed
    by function and statement id. The specification functions below (Step, RunEvents,
    Run) say what one run does to that state; the class Cloud performs the
    script's calls step by step and is proved against them. */
module TriggerSetup {
  import opened Wrappers

  /** COMMON_BUCKET_NAME: the bucket shared by every environment. */
  const CommonBucket: string := "s3-copy-input-bucket-common"
  const ObjectCreatedAll: string := "s3:ObjectCreated:*"
  const LambdaConfigsKey: string := "LambdaFunctionConfigurations"
  const ResponseMetadataKey: string := "ResponseMetadata"

  // ---------------------------------------------------------------------------
  // Data model
  // ---------------------------------------------------------------------------

  /** One `{"Name": ..., "Value": ...}` entry of a rule's key filter. */
  datatype FilterRule = FilterRule(name: string, value: string)

  /** One entry of `LambdaFunctionConfigurations`. */
  datatype LambdaRule = LambdaRule(functionArn: string, events: seq<string>, filterRules: seq<FilterRule>)

  /** A top-level value of a notification configuration: the list of Lambda
      rules, or any other entry (topic and queue rules, the response
      metadata), which the script never looks into. */
  datatype Value = LambdaConfigs(rules: seq<LambdaRule>) | Opaque(text: string)

  /** A notification configuration, as the dictionary the script handles. */
  type Config = map<string, Value>

  /** The permission `add_permission` records. */
  datatype Grant = Grant(action: string, principal: string, sourceArn: string, sourceAccount: string)

  /** Grants are identified by the function and the statement id. */
  datatype GrantKey = GrantKey(functionName: string, statementId: string)

  /** One `(lambda_function_name, bucket_name, s3_prefix, s3_suffix)` tuple. */
  datatype EventTuple = EventTuple(functionName: string, bucket: string, prefix: string, suffix: string)

  /** The state the script changes: every bucket's stored configuration and
      the grant table. */
  datatype Store = Store(buckets: map<string, Config>, grants: map<GrantKey, Grant>)

  /** The state after some calls, and whether the run is still going (false
      once a call has raised). */
  datatype Outcome = Outcome(store: Store, ok: bool)

  // ---------------------------------------------------------------------------
  // Rules and the append-only merge
  // ---------------------------------------------------------------------------

  /** The new rule `trigger_s3_event` builds: every object-created event, a
      prefix filter, and a suffix filter after it only when the suffix is
      non-empty; both values are kept verbatim. */
  function BuildRule(arn: string, prefix: string, suffix: string): (rule: LambdaRule)
    ensures rule.functionArn == arn && rule.events == [ObjectCreatedAll]
    ensures |rule.filterRules| == (if suffix == "" then 1 else 2)
    ensures rule.filterRules[0] == FilterRule("prefix", prefix)
    ensures suffix != "" ==> rule.filterRules[1] == FilterRule("suffix", suffix)
  {
    var rules := [FilterRule("prefix", prefix)];
    LambdaRule(arn, [ObjectCreatedAll], if suffix != "" then rules + [FilterRule("suffix", suffix)] else rules)
  }

  /** A configuration whose Lambda entry, if any, is a list of rules. */
  predicate WellTyped(c: Config) {
    LambdaConfigsKey in c ==> c[LambdaConfigsKey].LambdaConfigs?
  }

  /** The Lambda rules of a configuration; none when the entry is absent. */
  function RulesOf(c: Config): seq<LambdaRule> {
    if LambdaConfigsKey in c && c[LambdaConfigsKey].LambdaConfigs? then c[LambdaConfigsKey].rules else []
  }

  /** What `get_bucket_notification_configuration` returns for a stored
      configuration: the configuration plus the response metadata. */
  function Response(c: Config): (r: Config)
    ensures ResponseMetadataKey in r && r - {ResponseMetadataKey} == c - {ResponseMetadataKey}
    ensures WellTyped(r) == WellTyped(c) && RulesOf(r) == RulesOf(c)
  {
    c[ResponseMetadataKey := Opaque("HTTPStatusCode: 200")]
  }

  /** The merge of `trigger_s3_event` and `update_s3_notification`: drop the
      response metadata, create the Lambda list if absent and append the new
      rule at its end; None when the Lambda entry is not a list (the append
      raises). */
  function MergeRule(current: Config, rule: LambdaRule): (r: Option<Config>)
    ensures r.Some? <==> WellTyped(current)
    ensures r.Some? ==> && ResponseMetadataKey !in r.value
                        && LambdaConfigsKey in r.value
                        && r.value[LambdaConfigsKey] == LambdaConfigs(RulesOf(current) + [rule])
    ensures r.Some? ==> forall k :: k != LambdaConfigsKey && k != ResponseMetadataKey ==>
                          (k in r.value <==> k in current) && (k in current ==> r.value[k] == current[k])
  {
    var popped := current - {ResponseMetadataKey};
    if LambdaConfigsKey in popped && !popped[LambdaConfigsKey].LambdaConfigs? then None
    else Some(popped[LambdaConfigsKey := LambdaConfigs(RulesOf(popped) + [rule])])
  }

  /** The configuration after appending `rules` one by one to `c` (each
      append read back from the bucket). Nothing changes when there are no
      rules. */
  function Appended(c: Config, rules: seq<LambdaRule>): Config {
    if rules == [] then c
    else (c - {ResponseMetadataKey})[LambdaConfigsKey := LambdaConfigs(RulesOf(c) + rules)]
  }

  /** Appending one more rule, read back through the service response,
      extends the appended list by that rule. */
  lemma AppendedStep(c: Config, rules: seq<LambdaRule>, rule: LambdaRule)
    requires WellTyped(Appended(c, rules))
    ensures MergeRule(Response(Appended(c, rules)), rule) == Some(Appended(c, rules + [rule]))
  {
    var a := Appended(c, rules);
    var popped := Response(a) - {ResponseMetadataKey};
    assert popped == a - {ResponseMetadataKey};
    var merged := popped[LambdaConfigsKey := LambdaConfigs(RulesOf(popped) + [rule])];
    assert MergeRule(Response(a), rule) == Some(merged);
    if rules == [] {
      assert RulesOf(popped) == RulesOf(c);
      assert rules + [rule] == [rule];
    } else {
      assert RulesOf(popped) == RulesOf(c) + rules;
      assert popped == a;
      assert RulesOf(c) + (rules + [rule]) == RulesOf(c) + rules + [rule];
      assert merged == (c - {ResponseMetadataKey})[LambdaConfigsKey := LambdaConfigs(RulesOf(c) + rules + [rule])];
    }
  }

  /** A cleared configuration with rules appended holds exactly those rules. */
  lemma AppendedToEmpty(rules: seq<LambdaRule>)
    ensures Appended(map[], rules) == if rules == [] then map[] else map[LambdaConfigsKey := LambdaConfigs(rules)]
  {
    if rules != [] {
      var empty: Config := map[];
      assert empty - {ResponseMetadataKey} == empty;
      assert RulesOf(empty) + rules == rules;
    }
  }

  // ---------------------------------------------------------------------------
  // Permissions
  // ---------------------------------------------------------------------------

  /** The statement id `{function}-s3-invoke-{bucket}`: it starts with the
      function name and ends with the bucket name. */
  function StatementId(functionName: string, bucket: string): (sid: string)
    ensures |sid| == |functionName| + |"-s3-invoke-"| + |bucket|
    ensures functionName <= sid && sid[|sid| - |bucket|..] == bucket
  {
    functionName + "-s3-invoke-" + bucket
  }

  /** For one function, distinct buckets get distinct statement ids, so
      granting one bucket never replaces another bucket's grant. */
  lemma StatementIdInjective(functionName: string, b1: string, b2: string)
    requires StatementId(functionName, b1) == StatementId(functionName, b2)
    ensures b1 == b2
  {
    var sid := StatementId(functionName, b1);
    assert b1 == sid[|sid| - |b1|..];
  }

  /** The grant `add_lambda_permission` creates for a bucket. */
  function GrantFor(bucket: string, account: string): Grant {
    Grant("lambda:InvokeFunction", "s3.amazonaws.com", "arn:aws:s3:::" + bucket, account)
  }

  function KeyOf(e: EventTuple): GrantKey {
    GrantKey(e.functionName, StatementId(e.functionName, e.bucket))
  }

  /** The grant table after the remove-then-add of `create_unique_statement_id`
      for an existing function. */
  function Reissued(g: map<GrantKey, Grant>, functionName: string, bucket: string, account: string): map<GrantKey, Grant> {
    g[GrantKey(functionName, StatementId(functionName, bucket)) := GrantFor(bucket, account)]
  }

  /** Remove-then-add leaves exactly one grant under the statement id, the
      fresh one, whether or not one existed; every other grant is untouched. */
  lemma ReissuedExact(g: map<GrantKey, Grant>, functionName: string, bucket: string, account: string)
    ensures var r := Reissued(g, functionName, bucket, account);
      var key := GrantKey(functionName, StatementId(functionName, bucket));
      && key in r && r[key] == GrantFor(bucket, account)
      && r.Keys == g.Keys + {key}
      && forall k :: k in g && k != key ==> r[k] == g[k]
  {
  }

  // ---------------------------------------------------------------------------
  // One run, as a specification
  // ---------------------------------------------------------------------------

  /** `get_lambda_arn`: None when the function does not exist (get_function
      raises). */
  function LambdaArn(functions: map<string, string>, functionName: string): (arn: Option<string>)
    ensures arn.Some? <==> functionName in functions
    ensures arn.Some? ==> arn.value == functions[functionName]
  {
    if functionName in functions then Some(functions[functionName]) else None
  }

  /** The calls for tuple `e` cannot raise in state `s`. */
  predicate Admissible(s: Store, functions: map<string, string>, e: EventTuple) {
    e.functionName in functions && e.bucket in s.buckets && WellTyped(s.buckets[e.bucket])
  }

  /** One iteration of the loop in `create_s3_trigger`: look up the ARN,
      re-issue the grant, read and merge the bucket's configuration, write it
      back. A call that raises ends the run with what was done so far. */
  function Step(s: Store, functions: map<string, string>, account: string, e: EventTuple): (o: Outcome)
    ensures o.store.buckets.Keys == s.buckets.Keys
    ensures forall b :: b in s.buckets && b != e.bucket ==> o.store.buckets[b] == s.buckets[b]
    ensures e.functionName in functions ==> o.store.grants == Reissued(s.grants, e.functionName, e.bucket, account)
    ensures e.functionName !in functions ==> o == Outcome(s, false)
    ensures !o.ok ==> o.store.buckets == s.buckets
    ensures o.ok <==> Admissible(s, functions, e)
    ensures o.ok ==> o.store.buckets[e.bucket]
                     == MergeRule(Response(s.buckets[e.bucket]), BuildRule(functions[e.functionName], e.prefix, e.suffix)).value
  {
    match LambdaArn(functions, e.functionName)
    case None => Outcome(s, false)
    case Some(arn) =>
      var granted := s.(grants := Reissued(s.grants, e.functionName, e.bucket, account));
      if e.bucket !in s.buckets then Outcome(granted, false)
      else
        match MergeRule(Response(s.buckets[e.bucket]), BuildRule(arn, e.prefix, e.suffix))
        case None => Outcome(granted, false)
        case Some(merged) => Outcome(granted.(buckets := s.buckets[e.bucket := merged]), true)
  }

  /** The loop over the event tuples, in order, stopping at the first call
      that raises. */
  function RunEvents(s: Store, functions: map<string, string>, account: string, events: seq<EventTuple>): (o: Outcome)
  {
    if events == [] then Outcome(s, true)
    else
      var before := RunEvents(s, functions, account, events[..|events| - 1]);
      if before.ok then Step(before.store, functions, account, events[|events| - 1]) else before
  }

  /** The bucket `{input_bucket_name}-{env}`. */
  function InputBucket(inputBucketName: string, env: string): string {
    inputBucketName + "-" + env
  }

  /** The state once the input bucket and the common bucket hold an empty
      configuration. */
  function Cleared(s: Store, input: string): (c: Store)
    ensures c.grants == s.grants && c.buckets.Keys == s.buckets.Keys + {input, CommonBucket}
    ensures c.buckets[input] == map[] && c.buckets[CommonBucket] == map[]
    ensures forall b :: b in s.buckets && b != input && b != CommonBucket ==> c.buckets[b] == s.buckets[b]
  {
    s.(buckets := s.buckets[input := map[]][CommonBucket := map[]])
  }

  /** `create_s3_trigger`: clear the input bucket and the common bucket (a
      put on a missing bucket raises), then run the loop. */
  function Run(s: Store, functions: map<string, string>, account: string, env: string,
               inputBucketName: string, events: seq<EventTuple>): (o: Outcome)
    ensures o.ok ==> InputBucket(inputBucketName, env) in s.buckets && CommonBucket in s.buckets
  {
    var input := InputBucket(inputBucketName, env);
    if input !in s.buckets then Outcome(s, false)
    else if CommonBucket !in s.buckets then Outcome(s.(buckets := s.buckets[input := map[]]), false)
    else RunEvents(Cleared(s, input), functions, account, events)
  }

  // ---------------------------------------------------------------------------
  // What a run leaves behind
  // ---------------------------------------------------------------------------

  predicate FunctionsExist(functions: map<string, string>, events: seq<EventTuple>) {
    forall i :: 0 <= i < |events| ==> events[i].functionName in functions
  }

  /** The rules the tuples naming `bucket` contribute, in tuple order. */
  function RulesFor(bucket: string, functions: map<string, string>, events: seq<EventTuple>): seq<LambdaRule>
    requires FunctionsExist(functions, events)
  {
    if events == [] then []
    else
      var e := events[|events| - 1];
      var before := RulesFor(bucket, functions, events[..|events| - 1]);
      if e.bucket == bucket then before + [BuildRule(functions[e.functionName], e.prefix, e.suffix)] else before
  }

  /** The grant table after re-issuing the grant of every tuple, in order. */
  function ReissuedAll(g: map<GrantKey, Grant>, account: string, events: seq<EventTuple>): map<GrantKey, Grant> {
    if events == [] then g
    else
      var e := events[|events| - 1];
      Reissued(ReissuedAll(g, account, events[..|events| - 1]), e.functionName, e.bucket, account)
  }

  /** A run that stopped stays stopped: the remaining tuples change nothing. */
  lemma {:induction false} StoppedRunStays(s: Store, functions: map<string, string>, account: string,
                                           events: seq<EventTuple>, k: nat)
    requires k <= |events| && !RunEvents(s, functions, account, events[..k]).ok
    ensures RunEvents(s, functions, account, events) == RunEvents(s, functions, account, events[..k])
  {
    if k < |events| {
      var init := events[..|events| - 1];
      assert init[..k] == events[..k];
      StoppedRunStays(s, functions, account, init, k);
    } else {
      assert events[..k] == events;
    }
  }

  /** The loop runs to the end exactly when every tuple's function exists,
      its bucket exists, and that bucket's Lambda entry is a list. */
  lemma {:induction false} RunEventsSucceeds(s: Store, functions: map<string, string>, account: string,
                                             events: seq<EventTuple>)
    ensures RunEvents(s, functions, account, events).ok
        <==> forall i :: 0 <= i < |events| ==> Admissible(s, functions, events[i])
  {
    if RunEvents(s, functions, account, events).ok {
      RunEventsFinal(s, functions, account, events);
    } else if forall i :: 0 <= i < |events| ==> Admissible(s, functions, events[i]) {
      var init := events[..|events| - 1];
      var e := events[|events| - 1];
      assert forall i :: 0 <= i < |init| ==> init[i] == events[i];
      RunEventsSucceeds(s, functions, account, init);
      var before := RunEvents(s, functions, account, init);
      RunEventsFinal(s, functions, account, init);
      AppendedWellTyped(s.buckets[e.bucket], RulesFor(e.bucket, functions, init));
      assert Admissible(before.store, functions, e);
      assert false;
    }
  }

  lemma AppendedWellTyped(c: Config, rules: seq<LambdaRule>)
    ensures WellTyped(Appended(c, rules)) <==> WellTyped(c) || rules != []
  {
  }

  /** After a complete loop, every tuple was admissible and every bucket
      holds its old configuration with the rules of the tuples naming it
      appended in tuple order. */
  lemma {:induction false} RunEventsFinal(s: Store, functions: map<string, string>, account: string,
                                          events: seq<EventTuple>)
    requires RunEvents(s, functions, account, events).ok
    ensures forall i :: 0 <= i < |events| ==> Admissible(s, functions, events[i])
    ensures FunctionsExist(functions, events)
    ensures var t := RunEvents(s, functions, account, events).store;
      && t.buckets.Keys == s.buckets.Keys
      && (forall b :: b in s.buckets ==> t.buckets[b] == Appended(s.buckets[b], RulesFor(b, functions, events)))
  {
    if events != [] {
      var init := events[..|events| - 1];
      var e := events[|events| - 1];
      var before := RunEvents(s, functions, account, init);
      assert before.ok;
      RunEventsFinal(s, functions, account, init);
      var o := Step(before.store, functions, account, e);
      assert RunEvents(s, functions, account, events) == o;
      assert Admissible(before.store, functions, e);
      NamedBucketWellTyped(s, functions, init, e.bucket);
      assert Admissible(s, functions, e);
      AdmissibleExtend(s, functions, init, e, events);
      StepAppends(s, before.store, functions, account, events);
    }
  }

  /** Admissibility of every tuple extends from the first ones to one more. */
  lemma AdmissibleExtend(s: Store, functions: map<string, string>, init: seq<EventTuple>, e: EventTuple,
                          events: seq<EventTuple>)
    requires events != [] && init == events[..|events| - 1] && e == events[|events| - 1]
    requires Admissible(s, functions, e)
    requires forall i :: 0 <= i < |init| ==> Admissible(s, functions, init[i])
    ensures forall i :: 0 <= i < |events| ==> Admissible(s, functions, events[i])
  {
    forall i | 0 <= i < |events| ensures Admissible(s, functions, events[i]) {
      if i < |init| {
        assert events[i] == init[i];
      }
    }
  }

  /** One more complete iteration appends the tuple's rule to its bucket's
      accumulated rules. */
  lemma StepAppends(s: Store, before: Store, functions: map<string, string>, account: string,
                    events: seq<EventTuple>)
    requires events != [] && FunctionsExist(functions, events[..|events| - 1])
    requires Step(before, functions, account, events[|events| - 1]).ok
    requires before.buckets.Keys == s.buckets.Keys
    requires forall b :: b in s.buckets ==>
      before.buckets[b] == Appended(s.buckets[b], RulesFor(b, functions, events[..|events| - 1]))
    ensures FunctionsExist(functions, events)
    ensures var t := Step(before, functions, account, events[|events| - 1]).store;
      && t.buckets.Keys == s.buckets.Keys
      && (forall b :: b in s.buckets ==> t.buckets[b] == Appended(s.buckets[b], RulesFor(b, functions, events)))
  {
    var init := events[..|events| - 1];
    var e := events[|events| - 1];
    FunctionsExistExtend(functions, init, e, events);
    var t := Step(before, functions, account, e).store;
    var rules := RulesFor(e.bucket, functions, init);
    var rule := BuildRule(functions[e.functionName], e.prefix, e.suffix);
    assert t.buckets[e.bucket] == Appended(s.buckets[e.bucket], RulesFor(e.bucket, functions, events)) by {
      AppendedStep(s.buckets[e.bucket], rules, rule);
      assert RulesFor(e.bucket, functions, events) == rules + [rule];
    }
    forall b | b in s.buckets && b != e.bucket
      ensures t.buckets[b] == Appended(s.buckets[b], RulesFor(b, functions, events))
    {
      assert RulesFor(b, functions, events) == RulesFor(b, functions, init);
    }
  }

  lemma FunctionsExistExtend(functions: map<string, string>, init: seq<EventTuple>, e: EventTuple,
                             events: seq<EventTuple>)
    requires events != [] && init == events[..|events| - 1] && e == events[|events| - 1]
    requires FunctionsExist(functions, init) && e.functionName in functions
    ensures FunctionsExist(functions, events)
  {
    forall i | 0 <= i < |events| ensures events[i].functionName in functions {
      if i < |init| { assert events[i] == init[i]; }
    }
  }

  /** After a complete loop the grant table has every tuple's grant
      re-issued, in tuple order. */
  lemma {:induction false} RunEventsGrants(s: Store, functions: map<string, string>, account: string,
                                           events: seq<EventTuple>)
    requires RunEvents(s, functions, account, events).ok
    ensures RunEvents(s, functions, account, events).store.grants == ReissuedAll(s.grants, account, events)
  {
    if events != [] {
      var init := events[..|events| - 1];
      RunEventsGrants(s, functions, account, init);
    }
  }

  /** A bucket some tuple names was well typed before a complete loop, as
      the first merge into it succeeded. */
  lemma NamedBucketWellTyped(s: Store, functions: map<string, string>, events: seq<EventTuple>, b: string)
    requires FunctionsExist(functions, events)
    requires forall i :: 0 <= i < |events| ==> Admissible(s, functions, events[i])
    requires b in s.buckets && WellTyped(Appended(s.buckets[b], RulesFor(b, functions, events)))
    ensures WellTyped(s.buckets[b])
  {
    if RulesFor(b, functions, events) != [] {
      if forall j :: 0 <= j < |events| ==> events[j].bucket != b {
        RulesForOtherBucket(b, functions, events);
      }
      var j :| 0 <= j < |events| && events[j].bucket == b;
      assert Admissible(s, functions, events[j]);
    }
  }

  /** Every tuple's grant is in place after re-issuing them all: a later tuple
      with the same key names the same bucket, hence the same grant. */
  lemma {:induction false} ReissuedAllHolds(g: map<GrantKey, Grant>, account: string, events: seq<EventTuple>)
    ensures forall i :: 0 <= i < |events| ==>
      KeyOf(events[i]) in ReissuedAll(g, account, events)
      && ReissuedAll(g, account, events)[KeyOf(events[i])] == GrantFor(events[i].bucket, account)
  {
    if events != [] {
      var init := events[..|events| - 1];
      var e := events[|events| - 1];
      ReissuedAllHolds(g, account, init);
      forall i | 0 <= i < |events|
        ensures KeyOf(events[i]) in ReissuedAll(g, account, events)
        ensures ReissuedAll(g, account, events)[KeyOf(events[i])] == GrantFor(events[i].bucket, account)
      {
        if i < |init| {
          assert events[i] == init[i];
          if KeyOf(events[i]) == KeyOf(e) {
            StatementIdInjective(e.functionName, e.bucket, events[i].bucket);
          }
        }
      }
    }
  }

  /** Re-issuing grants that are already in place changes nothing. */
  lemma {:induction false} ReissuedAllFixpoint(h: map<GrantKey, Grant>, account: string, events: seq<EventTuple>)
    requires forall i :: 0 <= i < |events| ==> KeyOf(events[i]) in h && h[KeyOf(events[i])] == GrantFor(events[i].bucket, account)
    ensures ReissuedAll(h, account, events) == h
  {
    if events != [] {
      var init := events[..|events| - 1];
      assert forall i :: 0 <= i < |init| ==> init[i] == events[i];
      ReissuedAllFixpoint(h, account, init);
    }
  }

  /** After a complete run, the input bucket and the common bucket hold
      exactly the rules of the tuples naming them, in tuple order (no Lambda
      entry at all when no tuple names them); any other bucket keeps its old
      configuration with its tuples' rules appended. */
  lemma RunFinalConfigurations(s: Store, functions: map<string, string>, account: string, env: string,
                               inputBucketName: string, events: seq<EventTuple>)
    requires Run(s, functions, account, env, inputBucketName, events).ok
    ensures FunctionsExist(functions, events)
    ensures var t := Run(s, functions, account, env, inputBucketName, events).store;
      && t.buckets.Keys == s.buckets.Keys
      && (forall b :: b in s.buckets ==>
            t.buckets[b] == if b == InputBucket(inputBucketName, env) || b == CommonBucket
                            then Appended(map[], RulesFor(b, functions, events))
                            else Appended(s.buckets[b], RulesFor(b, functions, events)))
      && t.grants == ReissuedAll(s.grants, account, events)
  {
    var input := InputBucket(inputBucketName, env);
    var cleared := Cleared(s, input);
    RunEventsFinal(cleared, functions, account, events);
    RunEventsGrants(cleared, functions, account, events);
    var t := RunEvents(cleared, functions, account, events).store;
    forall b | b in s.buckets
      ensures t.buckets[b] == if b == input || b == CommonBucket
                              then Appended(map[], RulesFor(b, functions, events))
                              else Appended(s.buckets[b], RulesFor(b, functions, events))
    {
      assert cleared.buckets[b] == if b == input || b == CommonBucket then map[] else s.buckets[b];
    }
  }

  /** Rerunning with tuples that name only the two cleared buckets yields the
      same state: same configurations, same grants. */
  lemma RunIdempotent(s: Store, functions: map<string, string>, account: string, env: string,
                      inputBucketName: string, events: seq<EventTuple>)
    requires Run(s, functions, account, env, inputBucketName, events).ok
    requires forall i :: 0 <= i < |events| ==>
      events[i].bucket == InputBucket(inputBucketName, env) || events[i].bucket == CommonBucket
    ensures var first := Run(s, functions, account, env, inputBucketName, events);
      Run(first.store, functions, account, env, inputBucketName, events) == first
  {
    var input := InputBucket(inputBucketName, env);
    var first := Run(s, functions, account, env, inputBucketName, events);
    var t := first.store;
    RunFinalConfigurations(s, functions, account, env, inputBucketName, events);
    assert input in t.buckets && CommonBucket in t.buckets;
    var cleared := Cleared(t, input);
    var second := Run(t, functions, account, env, inputBucketName, events);
    assert second.ok by {
      forall i | 0 <= i < |events| ensures Admissible(cleared, functions, events[i]) {
        assert cleared.buckets[events[i].bucket] == map[];
      }
      RunEventsSucceeds(cleared, functions, account, events);
      assert second == RunEvents(cleared, functions, account, events);
    }
    RunFinalConfigurations(t, functions, account, env, inputBucketName, events);
    assert second.store.buckets == t.buckets by {
      forall b | b in t.buckets
        ensures second.store.buckets[b] == t.buckets[b]
      {
        if b != input && b != CommonBucket {
          RulesForOtherBucket(b, functions, events);
        }
      }
    }
    assert second.store.grants == t.grants by {
      ReissuedAllHolds(s.grants, account, events);
      ReissuedAllFixpoint(t.grants, account, events);
    }
    assert second.store == t;
  }

  /** A bucket no tuple names receives no rules. */
  lemma {:induction false} RulesForOtherBucket(bucket: string, functions: map<string, string>, events: seq<EventTuple>)
    requires FunctionsExist(functions, events)
    requires forall i :: 0 <= i < |events| ==> events[i].bucket != bucket
    ensures RulesFor(bucket, functions, events) == []
  {
    if events != [] {
      var init := events[..|events| - 1];
      assert forall i :: 0 <= i < |init| ==> init[i] == events[i];
      RulesForOtherBucket(bucket, functions, init);
    }
  }

  /** A bucket outside the cleared pair is not reset: in this model, whose
      writes always succeed, a second run appends its tuples' rules again.
      S3 itself refuses a configuration in which two rules overlap on the
      same event type, and a rule repeated verbatim overlaps itself, so there
      a rerun stops at the write into such a bucket. */
  lemma RerunAccumulatesElsewhere(s: Store, functions: map<string, string>, account: string, env: string,
                                  inputBucketName: string, events: seq<EventTuple>, b: string)
    requires Run(s, functions, account, env, inputBucketName, events).ok
    requires b in s.buckets && b != InputBucket(inputBucketName, env) && b != CommonBucket
    ensures var first := Run(s, functions, account, env, inputBucketName, events);
      var second := Run(first.store, functions, account, env, inputBucketName, events);
      && second.ok && b in second.store.buckets && FunctionsExist(functions, events)
      && RulesOf(second.store.buckets[b]) == RulesOf(s.buckets[b]) + RulesFor(b, functions, events) + RulesFor(b, functions, events)
  {
    var input := InputBucket(inputBucketName, env);
    var first := Run(s, functions, account, env, inputBucketName, events);
    var t := first.store;
    RunFinalConfigurations(s, functions, account, env, inputBucketName, events);
    assert input in s.buckets && CommonBucket in s.buckets;
    var cleared0 := Cleared(s, input);
    assert first == RunEvents(cleared0, functions, account, events);
    RunEventsSucceeds(cleared0, functions, account, events);
    var cleared := Cleared(t, input);
    forall i | 0 <= i < |events| ensures Admissible(cleared, functions, events[i]) {
      var c := events[i].bucket;
      assert Admissible(cleared0, functions, events[i]);
      if c != input && c != CommonBucket {
        AppendedWellTyped(s.buckets[c], RulesFor(c, functions, events));
      }
    }
    RunEventsSucceeds(cleared, functions, account, events);
    var second := Run(t, functions, account, env, inputBucketName, events);
    assert second == RunEvents(cleared, functions, account, events);
    RunFinalConfigurations(t, functions, account, env, inputBucketName, events);
    var rules := RulesFor(b, functions, events);
    AppendedRules(s.buckets[b], rules);
    AppendedRules(t.buckets[b], rules);
  }

  /** The Lambda rules after an append are the old ones followed by the new. */
  lemma AppendedRules(c: Config, rules: seq<LambdaRule>)
    ensures RulesOf(Appended(c, rules)) == RulesOf(c) + rules
  {
    if rules == [] {
      assert RulesOf(c) + rules == RulesOf(c);
    }
  }

  // ---------------------------------------------------------------------------
  // The response metadata never reaches a stored configuration
  // ---------------------------------------------------------------------------

  /** No stored configuration holds the response metadata (a put carrying
      it is refused by the client's parameter validation). */
  predicate NoMetadata(s: Store) {
    forall b :: b in s.buckets ==> ResponseMetadataKey !in s.buckets[b]
  }

  /** The loop keeps every stored configuration free of the metadata, since
      each merge pops it before the write. */
  lemma {:induction false} RunEventsNoMetadata(s: Store, functions: map<string, string>, account: string,
                                               events: seq<EventTuple>)
    requires NoMetadata(s)
    ensures NoMetadata(RunEvents(s, functions, account, events).store)
  {
    if events != [] {
      var init := events[..|events| - 1];
      RunEventsNoMetadata(s, functions, account, init);
    }
  }

  /** A run, complete or not, keeps the stored configurations free of the
      metadata. */
  lemma RunNoMetadata(s: Store, functions: map<string, string>, account: string, env: string,
                      inputBucketName: string, events: seq<EventTuple>)
    requires NoMetadata(s)
    ensures NoMetadata(Run(s, functions, account, env, inputBucketName, events).store)
  {
    var input := InputBucket(inputBucketName, env);
    if input in s.buckets && CommonBucket in s.buckets {
      RunEventsNoMetadata(Cleared(s, input), functions, account, events);
    }
  }

  // ---------------------------------------------------------------------------
  // The tuples of `main`
  // ---------------------------------------------------------------------------

  /** The four event tuples `main` configures; the last suffix, `*.tsv.gz`,
      is passed on verbatim (S3 suffix filters do not expand wildcards). */
  function MainEvents(env: string, inputBucketName: string): (events: seq<EventTuple>)
    ensures |events| == 4
    ensures forall i :: 0 <= i < 4 ==>
      events[i].bucket == InputBucket(inputBucketName, env) || events[i].bucket == CommonBucket
  {
    var input := InputBucket(inputBucketName, env);
    var lambda1 := "s3-copy-lambda-" + env;
    var lambda2 := "s3-copy-lambda2-" + env;
    [ EventTuple(lambda1, input, "input/", ".json"),
      EventTuple(lambda2, input, "prefix/", ".tsv.gz"),
      EventTuple(lambda1, CommonBucket, "input/", ".tsv.gz"),
      EventTuple(lambda2, CommonBucket, "input2/", "*.tsv.gz") ]
  }

  /** `main`'s run completes exactly when both Lambda functions and both
      buckets exist, whatever the buckets held before. */
  lemma MainRunSucceeds(s: Store, functions: map<string, string>, account: string, env: string,
                        inputBucketName: string)
    ensures Run(s, functions, account, env, inputBucketName, MainEvents(env, inputBucketName)).ok
        <==> && "s3-copy-lambda-" + env in functions && "s3-copy-lambda2-" + env in functions
             && InputBucket(inputBucketName, env) in s.buckets && CommonBucket in s.buckets
  {
    var input := InputBucket(inputBucketName, env);
    var events := MainEvents(env, inputBucketName);
    if input in s.buckets && CommonBucket in s.buckets {
      var cleared := Cleared(s, input);
      RunEventsSucceeds(cleared, functions, account, events);
      assert forall i :: 0 <= i < 4 ==> cleared.buckets[events[i].bucket] == map[];
      assert events[0].functionName == "s3-copy-lambda-" + env;
      assert events[1].functionName == "s3-copy-lambda2-" + env;
    }
  }

  /** After `main`'s run completes, the environment's input bucket holds the
      `.json` rule then the `.tsv.gz` rule, and the common bucket the two
      rules naming it, each with its function's ARN; a rerun changes
      nothing. */
  lemma MainRunConfigures(s: Store, functions: map<string, string>, account: string, env: string,
                          inputBucketName: string)
    requires InputBucket(inputBucketName, env) != CommonBucket
    requires Run(s, functions, account, env, inputBucketName, MainEvents(env, inputBucketName)).ok
    ensures "s3-copy-lambda-" + env in functions && "s3-copy-lambda2-" + env in functions
    ensures var first := Run(s, functions, account, env, inputBucketName, MainEvents(env, inputBucketName));
      InputBucket(inputBucketName, env) in first.store.buckets && CommonBucket in first.store.buckets
    ensures var events := MainEvents(env, inputBucketName);
      var first := Run(s, functions, account, env, inputBucketName, events);
      var arn1 := functions["s3-copy-lambda-" + env];
      var arn2 := functions["s3-copy-lambda2-" + env];
      && first.store.buckets[InputBucket(inputBucketName, env)]
         == map[LambdaConfigsKey := LambdaConfigs([BuildRule(arn1, "input/", ".json"), BuildRule(arn2, "prefix/", ".tsv.gz")])]
      && first.store.buckets[CommonBucket]
         == map[LambdaConfigsKey := LambdaConfigs([BuildRule(arn1, "input/", ".tsv.gz"), BuildRule(arn2, "input2/", "*.tsv.gz")])]
      && Run(first.store, functions, account, env, inputBucketName, events) == first
  {
    var input := InputBucket(inputBucketName, env);
    var events := MainEvents(env, inputBucketName);
    RunFinalConfigurations(s, functions, account, env, inputBucketName, events);
    MainRunSucceeds(s, functions, account, env, inputBucketName);
    MainRules(functions, env, inputBucketName);
    AppendedToEmpty(RulesFor(input, functions, events));
    AppendedToEmpty(RulesFor(CommonBucket, functions, events));
    RunIdempotent(s, functions, account, env, inputBucketName, events);
  }

  /** The rules `main`'s tuples contribute to each of the two buckets. */
  lemma MainRules(functions: map<string, string>, env: string, inputBucketName: string)
    requires InputBucket(inputBucketName, env) != CommonBucket
    requires "s3-copy-lambda-" + env in functions && "s3-copy-lambda2-" + env in functions
    ensures var events := MainEvents(env, inputBucketName);
      var arn1 := functions["s3-copy-lambda-" + env];
      var arn2 := functions["s3-copy-lambda2-" + env];
      && FunctionsExist(functions, events)
      && RulesFor(InputBucket(inputBucketName, env), functions, events)
         == [BuildRule(arn1, "input/", ".json"), BuildRule(arn2, "prefix/", ".tsv.gz")]
      && RulesFor(CommonBucket, functions, events)
         == [BuildRule(arn1, "input/", ".tsv.gz"), BuildRule(arn2, "input2/", "*.tsv.gz")]
  {
    var input := InputBucket(inputBucketName, env);
    var events := MainEvents(env, inputBucketName);
    var arn1 := functions["s3-copy-lambda-" + env];
    var arn2 := functions["s3-copy-lambda2-" + env];
    assert events[..1][..0] == [];
    assert events[..2][..1] == events[..1];
    assert events[..3][..2] == events[..2];
    assert events[..4] == events;
    var r1 := BuildRule(arn1, "input/", ".json");
    var r2 := BuildRule(arn2, "prefix/", ".tsv.gz");
    var r3 := BuildRule(arn1, "input/", ".tsv.gz");
    var r4 := BuildRule(arn2, "input2/", "*.tsv.gz");
    assert RulesFor(input, functions, events[..1]) == [r1];
    assert RulesFor(CommonBucket, functions, events[..1]) == [];
    assert RulesFor(input, functions, events[..2]) == [r1, r2];
    assert RulesFor(CommonBucket, functions, events[..2]) == [];
    assert RulesFor(input, functions, events[..3]) == [r1, r2];
    assert RulesFor(CommonBucket, functions, events[..3]) == [r3];
  }

  // ---------------------------------------------------------------------------
  // The script's calls, step by step
  // ---------------------------------------------------------------------------

  /** The two clients the script talks to: S3's stored notification
      configurations and Lambda's functions and grant table. */
  class Cloud {
    var buckets: map<string, Config>
    var grants: map<GrantKey, Grant>
    /** Function name to ARN; the script never creates or deletes functions. */
    const functions: map<string, string>

    /** The state the specification functions speak about. */
    function State(): Store
      reads this
    {
      Store(buckets, grants)
    }

    ghost predicate Valid()
      reads this
    {
      NoMetadata(State())
    }

    /** S3 never stores the response metadata, so a starting state holds
        none. */
    constructor (buckets0: map<string, Config>, grants0: map<GrantKey, Grant>, functions0: map<string, string>)
      requires NoMetadata(Store(buckets0, grants0))
      ensures Valid()
      ensures buckets == buckets0 && grants == grants0 && functions == functions0
    {
      buckets := buckets0;
      grants := grants0;
      functions := functions0;
    }

    /** `get_bucket_notification_configuration`: the stored configuration
        with the response metadata added; None for a missing bucket. */
    function Fetch(bucket: string): (r: Option<Config>)
      reads this
      ensures r.Some? <==> bucket in buckets
      ensures r.Some? ==> && ResponseMetadataKey in r.value
                          && r.value - {ResponseMetadataKey} == buckets[bucket] - {ResponseMetadataKey}
    {
      if bucket in buckets then Some(Response(buckets[bucket])) else None
    }

    /** `put_bucket_notification_configuration`: replaces the stored
        configuration; refused for a missing bucket and for a configuration
        still carrying the response metadata. */
    method PutNotificationConfiguration(bucket: string, config: Config) returns (ok: bool)
      modifies this`buckets
      ensures ok <==> bucket in old(buckets) && ResponseMetadataKey !in config
      ensures buckets == if ok then old(buckets)[bucket := config] else old(buckets)
      ensures Valid() <== old(Valid())
    {
      ok := bucket in buckets && ResponseMetadataKey !in config;
      if ok {
        buckets := buckets[bucket := config];
      }
    }

    /** `remove_existing_permission`: deletes the statement if present; the
        not-found error (missing statement or function) is swallowed. */
    method RemoveExistingPermission(functionName: string, statementId: string)
      modifies this`grants
      ensures grants == if functionName in functions then old(grants) - {GrantKey(functionName, statementId)} else old(grants)
    {
      var key := GrantKey(functionName, statementId);
      if functionName in functions && key in grants {
        grants := grants - {key};
      }
    }

    /** `add_lambda_permission`: records S3's right to invoke the function
        from the bucket, for the given account; refused when the function is
        missing or the statement id is taken. */
    method AddLambdaPermission(functionName: string, bucket: string, statementId: string, account: string)
      returns (ok: bool)
      modifies this`grants
      ensures ok <==> functionName in functions && GrantKey(functionName, statementId) !in old(grants)
      ensures grants == if ok then old(grants)[GrantKey(functionName, statementId) := GrantFor(bucket, account)]
                        else old(grants)
    {
      var key := GrantKey(functionName, statementId);
      ok := functionName in functions && key !in grants;
      if ok {
        grants := grants[key := GrantFor(bucket, account)];
      }
    }

    /** `create_unique_statement_id`: remove, then add, the statement
        `{function}-s3-invoke-{bucket}`; the add cannot collide. */
    method CreateUniqueStatementId(functionName: string, bucket: string, account: string) returns (ok: bool)
      modifies this`grants
      ensures ok <==> functionName in functions
      ensures grants == if ok then Reissued(old(grants), functionName, bucket, account) else old(grants)
    {
      var statementId := StatementId(functionName, bucket);
      RemoveExistingPermission(functionName, statementId);
      ok := AddLambdaPermission(functionName, bucket, statementId, account);
    }

    /** `trigger_s3_event`: builds the new rule, reads the bucket's
        configuration, pops the metadata, creates the Lambda list if absent
        and appends the rule. None when the read or the append raises. */
    method TriggerS3Event(bucket: string, arn: string, prefix: string, suffix: string) returns (merged: Option<Config>)
      ensures bucket !in buckets ==> merged == None
      ensures bucket in buckets ==> merged == MergeRule(Response(buckets[bucket]), BuildRule(arn, prefix, suffix))
    {
      var filterRules := [FilterRule("prefix", prefix)];
      if suffix != "" {
        filterRules := filterRules + [FilterRule("suffix", suffix)];
      }
      var rule := LambdaRule(arn, [ObjectCreatedAll], filterRules);
      var fetched := Fetch(bucket);
      if fetched.None? {
        return None;
      }
      var config := fetched.value - {ResponseMetadataKey};
      ghost var popped := config;
      if LambdaConfigsKey !in config {
        config := config[LambdaConfigsKey := LambdaConfigs([])];
      }
      assert config - {LambdaConfigsKey} == popped - {LambdaConfigsKey};
      match config[LambdaConfigsKey] {
        case LambdaConfigs(rules) =>
          assert rules == RulesOf(popped);
          merged := Some(config[LambdaConfigsKey := LambdaConfigs(rules + [rule])]);
          assert merged.value == popped[LambdaConfigsKey := LambdaConfigs(RulesOf(popped) + [rule])];
        case Opaque(_) =>
          merged := None;
      }
    }

    /** `update_s3_notification`: the same read-pop-append as
        `trigger_s3_event` with a prepared rule, then the write. */
    method UpdateS3Notification(bucket: string, rule: LambdaRule) returns (ok: bool)
      modifies this`buckets
      ensures ok <==> bucket in old(buckets) && WellTyped(old(buckets)[bucket])
      ensures buckets == if ok then old(buckets)[bucket := MergeRule(old(buckets)[bucket], rule).value] else old(buckets)
      ensures Valid() <== old(Valid())
    {
      var fetched := Fetch(bucket);
      if fetched.None? {
        return false;
      }
      var config := fetched.value - {ResponseMetadataKey};
      ghost var popped := config;
      assert popped == old(buckets)[bucket] - {ResponseMetadataKey};
      if LambdaConfigsKey !in config {
        config := config[LambdaConfigsKey := LambdaConfigs([])];
      }
      assert config - {LambdaConfigsKey} == popped - {LambdaConfigsKey};
      match config[LambdaConfigsKey] {
        case LambdaConfigs(rules) =>
          assert rules == RulesOf(popped);
          config := config[LambdaConfigsKey := LambdaConfigs(rules + [rule])];
          assert config == MergeRule(old(buckets)[bucket], rule).value;
          ok := PutNotificationConfiguration(bucket, config);
        case Opaque(_) =>
          ok := false;
      }
    }

    /** One pass of the loop in `create_s3_trigger`: look up the ARN,
        re-issue the grant, merge the rule into the bucket's configuration and
        write it back; false once a call raises. */
    method ConfigureTuple(account: string, e: EventTuple) returns (ok: bool)
      modifies this
      ensures Outcome(State(), ok) == Step(old(State()), functions, account, e)
      ensures Valid() <== old(Valid())
    {
      ghost var before := State();
      var arn := LambdaArn(functions, e.functionName);
      if arn.None? {
        return false;
      }
      var granted := CreateUniqueStatementId(e.functionName, e.bucket, account);
      assert granted;
      assert State() == before.(grants := Reissued(before.grants, e.functionName, e.bucket, account));
      var merged := TriggerS3Event(e.bucket, arn.value, e.prefix, e.suffix);
      if merged.None? {
        return false;
      }
      ok := PutNotificationConfiguration(e.bucket, merged.value);
    }

    /** The two writes of an empty configuration that open
        `create_s3_trigger`: the input bucket first, then the common bucket;
        a missing bucket stops them. */
    method ClearNotifications(input: string) returns (ok: bool)
      modifies this`buckets
      ensures ok <==> input in old(buckets) && CommonBucket in old(buckets)
      ensures buckets == if ok then old(buckets)[input := map[]][CommonBucket := map[]]
                         else if input in old(buckets) then old(buckets)[input := map[]]
                         else old(buckets)
      ensures Valid() <== old(Valid())
    {
      ok := PutNotificationConfiguration(input, map[]);
      if ok {
        ok := PutNotificationConfiguration(CommonBucket, map[]);
      }
    }

    /** The `for` loop of `create_s3_trigger`: configure each tuple in
        order; the first call that raises ends the loop with its earlier
        effects kept. */
    method ConfigureAll(account: string, events: seq<EventTuple>) returns (ok: bool)
      modifies this
      ensures Outcome(State(), ok) == RunEvents(old(State()), functions, account, events)
      ensures Valid() <== old(Valid())
    {
      ghost var start := State();
      ghost var wasValid := Valid();
      ok := true;
      var i := 0;
      while i < |events|
        invariant 0 <= i <= |events| && ok
        invariant RunEvents(start, functions, account, events[..i]) == Outcome(State(), true)
        invariant wasValid ==> Valid()
      {
        assert events[..i + 1][..i] == events[..i] && events[..i + 1][i] == events[i];
        ok := ConfigureTuple(account, events[i]);
        if !ok {
          StoppedRunStays(start, functions, account, events, i + 1);
          return;
        }
        i := i + 1;
      }
      assert events[..i] == events;
    }

    /** `create_s3_trigger`: clear the two buckets, then run the loop. */
    method CreateS3Trigger(env: string, account: string, events: seq<EventTuple>, inputBucketName: string)
      returns (ok: bool)
      modifies this
      ensures Outcome(State(), ok) == Run(old(State()), functions, account, env, inputBucketName, events)
      ensures Valid() <== old(Valid())
    {
      ghost var s0 := State();
      var input := inputBucketName + "-" + env;
      ok := ClearNotifications(input);
      assert input == InputBucket(inputBucketName, env);
      if !ok {
        assert Run(s0, functions, account, env, inputBucketName, events) == Outcome(State(), false);
        return;
      }
      assert State() == Cleared(s0, input);
      ok := ConfigureAll(account, events);
    }
  }
}
