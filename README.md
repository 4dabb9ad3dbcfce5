# S3 copy pipeline: a verified model

The system has two parts.

- **The copy handler** (`sam-app/handler/s3copy.py`) is a Lambda function triggered by S3
  "object created" events. It reads the first record of the event. It takes the routing id
  from the object key: the last `/`-separated segment, cut at its first `.`. Objects ending in
  `.json` or `.tsv.gz` are copied into the target bucket under
  `{target_prefix}/{YYYY/MM/DD}/{source_key}`, where `target_prefix` is the routing table's
  entry for the id. Every other object is left alone. The handler answers with a
  `{statusCode, body}` response.
- **The trigger configurator** (`sam-app/shell/setup_s3_trigger.py`) first clears the
  notification configuration of the environment's input bucket and of the common bucket
  `s3-copy-input-bucket-common`. Then, for each
  `(function, bucket, prefix, suffix)` tuple, it looks up the function's ARN. It re-issues
  the permission `{function}-s3-invoke-{bucket}` that lets S3 invoke the function (remove,
  then add). It appends a rule for the object-created events with a prefix filter, and a
  suffix filter when the suffix is non-empty, to the bucket's `LambdaFunctionConfigurations`,
  and writes the configuration back.

The Dafny project has three modules.

- `Wrappers` (`wrappers.dfy`) holds `Option` and `Result`.
- `S3Copy` (`s3copy.dfy`) models the handler as pure functions. The routing table, today's
  date, the target bucket and the outcome of the server-side copy are parameters. The
  result is the response together with the copy request the handler issues, if any. An
  event without records is a `Failure`.
- `TriggerSetup` (`trigger_setup.dfy`) models the configurator in two layers.
  - Specification functions over a `Store` value give the effect of one loop iteration
    (`Step`), of the loop (`RunEvents`) and of a whole run (`Run`). The `Store` holds every
    bucket's stored configuration and the Lambda grant table.
  - The class `Cloud` holds the same state in mutable fields. Its methods perform the
    script's calls step by step. `CreateS3Trigger` is proved equal to `Run`.

  A call that raises in the script is a failed step. The run stops there and keeps what was
  already done; there is no rollback.

Reading a bucket's configuration returns it with a `ResponseMetadata` entry added, as the S3
client does. The script pops that entry before writing. A write that still carries it is
refused, as the client's parameter validation refuses unknown keys. So no bucket ever stores
that entry: `Cloud.Valid` says so, the `Cloud` constructor demands it of the starting state,
and every method that writes keeps it.

Two details of the handler are easy to misread.

- An unmapped routing id does not escape the handler. The table lookup runs inside the `try`
  of `handler` (`s3copy.py:30-39`), so it gives a 500 response with the error body. No copy
  request is made, because the lookup precedes `copy_object`.
- The no-op response body says `is not a .json file` even for keys with other suffixes. The
  model keeps that text verbatim.

## Model

| member | source | states |
|---|---|---|
| S3Copy.LastSegment | sam-app/handler/s3copy.py:27 | the last segment holds no `/`, is a suffix of the key, and is the whole key or follows a `/` |
| S3Copy.LastSegmentUnique | sam-app/handler/s3copy.py:27 | those three properties determine the last segment |
| S3Copy.Stem | sam-app/handler/s3copy.py:27 | the stem holds no `.`, is a prefix of the segment, and is the whole segment or stops at a `.` |
| S3Copy.StemUnique | sam-app/handler/s3copy.py:27 | those three properties determine the stem |
| S3Copy.RoutingId | sam-app/handler/s3copy.py:27 | the routing id holds neither `/` nor `.` and is a prefix of the key's last segment |
| S3Copy.RoutingIdStopsAtDot | sam-app/handler/s3copy.py:27 | the routing id is the whole last segment or stops at its first `.`, which together with `RoutingId`'s contract fixes it |
| S3Copy.IsCopyable | sam-app/handler/s3copy.py:29 | the suffix test for `.json` and `.tsv.gz`; its partners are `CopyOnlyForAcceptedSuffix` (a copy happens only for such keys) and `CopyableIdDropsExtension` |
| S3Copy.CopyableIdDropsExtension | sam-app/handler/s3copy.py:27-29 | for a copyable key the routing id is a proper prefix of the last segment: the extension is never part of the id |
| S3Copy.RoutingIdExample | sam-app/handler/s3copy.py:27-29 | `input/test1.json` has routing id `test1` and is copyable |
| S3Copy.Decimal | sam-app/handler/s3copy.py:15 | the year numeral is non-empty, all digits, has no leading zero, and denotes the year |
| S3Copy.Pad2 | sam-app/handler/s3copy.py:15 | month and day are exactly two digits and denote their value |
| S3Copy.DateSegment | sam-app/handler/s3copy.py:15 | `%Y/%m/%d` is digits except the two `/` before the month and the day |
| S3Copy.DateSegmentRoundTrip | sam-app/handler/s3copy.py:15 | parsing the date segment gives back the date |
| S3Copy.DateSegmentExample | sam-app/handler/s3copy.py:15 | 2024-06-01 formats as `2024/06/01`, with month and day zero-padded |
| S3Copy.YearExample | sam-app/handler/s3copy.py:15 | `%Y` on 2024 is `2024` |
| S3Copy.TargetKey | sam-app/handler/s3copy.py:8-17 | a result exists exactly when the id is in the table; it starts with the table entry and ends with today's date segment |
| S3Copy.SuccessBody | sam-app/handler/s3copy.py:35 | the 200 body after a copy, `Successfully copied {source_key}`; `CopyRequestShape` and `ScenarioJsonIsCopied` state where it is used |
| S3Copy.ErrorBody | sam-app/handler/s3copy.py:39 | the 500 body, `Error copying {source_key}`; `CopyRequestShape` and `UnmappedIdIsError` state where it is used |
| S3Copy.NoActionBody | sam-app/handler/s3copy.py:42 | the no-op 200 body, `{source_key} is not a .json file. No action taken.`; `CopyOnlyForAcceptedSuffix` and `ScenarioJpgIsIgnored` state where it is used |
| S3Copy.Handler | sam-app/handler/s3copy.py:20-42 | failure exactly when there are no records; status 200 or 500; a copy request reads the first record's key; a 500 only for a copyable key |
| S3Copy.CopyOnlyForAcceptedSuffix | sam-app/handler/s3copy.py:29-42 | a copy is requested exactly for a `.json`/`.tsv.gz` key with a mapped id; other keys get 200 and the no-action body |
| S3Copy.CopyRequestShape | sam-app/handler/s3copy.py:30-39 | a mapped, copyable key yields one request from the event's bucket and key to `{target}/{date}/{key}` in the target bucket; 200 on copy success, 500 otherwise |
| S3Copy.UnmappedIdIsError | sam-app/handler/s3copy.py:30-39 | an unmapped id gives 500 with the error body and no copy request |
| S3Copy.DestinationKeyEmbedsSource | sam-app/handler/s3copy.py:32 | the destination key starts with the target prefix and `/`, ends with `/` and the source key, and its middle parses back to the date |
| S3Copy.OnlyFirstRecordMatters | sam-app/handler/s3copy.py:25-26 | records after the first do not affect the result |
| S3Copy.LastSegmentOfJoin | sam-app/handler/s3copy.py:27 | joining after a `/` leaves the last segment of the tail |
| S3Copy.DestinationKeysDistinct | sam-app/handler/s3copy.py:27-32 | on one day with one table, equal destination keys come from equal source keys |
| S3Copy.ScenarioJsonIsCopied | sam-app/handler/s3copy.py:20-35 | `input/test1.json` with `{test1: test1_prefix}` on 2024-06-01 is copied to `test1_prefix/2024/06/01/input/test1.json` with status 200 |
| S3Copy.ScenarioJpgIsIgnored | sam-app/handler/s3copy.py:40-42 | `input/HappyFace.jpg` gives 200, the no-action body and no copy |
| TriggerSetup.BuildRule | sam-app/shell/setup_s3_trigger.py:48-55 | the rule names the ARN and all object-created events; the prefix filter comes first; a suffix filter follows exactly when the suffix is non-empty |
| TriggerSetup.Response | sam-app/shell/setup_s3_trigger.py:59 | a read adds the metadata entry and changes nothing else |
| TriggerSetup.MergeRule | sam-app/shell/setup_s3_trigger.py:59-68 | the merge succeeds exactly when the Lambda entry is absent or a list; it drops the metadata, appends the rule after the existing ones and keeps every other entry |
| TriggerSetup.AppendedStep | sam-app/shell/setup_s3_trigger.py:59-68 | merging one more rule into a read-back configuration extends the appended list by that rule |
| TriggerSetup.AppendedRules | sam-app/shell/setup_s3_trigger.py:66 | after appends, the Lambda rules are the old ones followed by the new ones |
| TriggerSetup.AppendedToEmpty | sam-app/shell/setup_s3_trigger.py:85-86 | a cleared configuration with rules appended holds exactly those rules |
| TriggerSetup.GrantFor | sam-app/shell/setup_s3_trigger.py:21-30 | the grant's fields: action `lambda:InvokeFunction`, principal `s3.amazonaws.com`, source ARN `arn:aws:s3:::{bucket}`, and the account; `ReissuedExact` and `Cloud.AddLambdaPermission` state where it is stored |
| TriggerSetup.StatementId | sam-app/shell/setup_s3_trigger.py:75 | the statement id starts with the function name and ends with the bucket name |
| TriggerSetup.StatementIdInjective | sam-app/shell/setup_s3_trigger.py:71-79 | for one function, distinct buckets get distinct statement ids |
| TriggerSetup.Reissued | sam-app/shell/setup_s3_trigger.py:71-79 | the grant table after remove-then-add; characterised by `ReissuedExact` |
| TriggerSetup.ReissuedExact | sam-app/shell/setup_s3_trigger.py:71-79 | remove-then-add leaves exactly the fresh grant under the id and keeps every other grant |
| TriggerSetup.LambdaArn | sam-app/shell/setup_s3_trigger.py:8-10 | the ARN is found exactly when the function exists, and it is the function's ARN |
| TriggerSetup.Step | sam-app/shell/setup_s3_trigger.py:88-107 | one iteration re-issues the grant when the function exists; it succeeds exactly when the function and bucket exist and the Lambda entry is a list; it writes only the named bucket, and a failed iteration writes no bucket |
| TriggerSetup.RunEvents | sam-app/shell/setup_s3_trigger.py:88-107 | the loop: each tuple is a `Step` until one fails; its partners are `StoppedRunStays`, `RunEventsSucceeds`, `RunEventsFinal` and `RunEventsGrants` |
| TriggerSetup.StoppedRunStays | sam-app/shell/setup_s3_trigger.py:88-107 | once a call has raised, the remaining tuples change nothing |
| TriggerSetup.RunEventsSucceeds | sam-app/shell/setup_s3_trigger.py:88-107 | the loop completes exactly when every tuple's function and bucket exist and the bucket's Lambda entry is a list |
| TriggerSetup.RunEventsFinal | sam-app/shell/setup_s3_trigger.py:88-107 | after a complete loop, each bucket holds its old configuration plus its tuples' rules, in tuple order |
| TriggerSetup.StepAppends | sam-app/shell/setup_s3_trigger.py:99-106 | one more complete iteration adds the tuple's rule after the rules its bucket already gained, and changes no other bucket |
| TriggerSetup.RunEventsGrants | sam-app/shell/setup_s3_trigger.py:97 | after a complete loop, each tuple's grant has been re-issued, in order |
| TriggerSetup.ReissuedAllHolds | sam-app/shell/setup_s3_trigger.py:97 | after re-issuing, every tuple's grant is in place under its statement id |
| TriggerSetup.InputBucket | sam-app/shell/setup_s3_trigger.py:85 | the input bucket is named `{input_bucket_name}-{env}` |
| TriggerSetup.Cleared | sam-app/shell/setup_s3_trigger.py:85-86 | the input and common buckets hold an empty configuration afterwards; grants and every other bucket are kept |
| TriggerSetup.Run | sam-app/shell/setup_s3_trigger.py:82-107 | a complete run needs both the input and the common bucket; `RunFinalConfigurations` states its final state and `Cloud.CreateS3Trigger` is proved equal to it |
| TriggerSetup.RunFinalConfigurations | sam-app/shell/setup_s3_trigger.py:82-107 | after a complete run, the input and common buckets hold exactly their tuples' rules, other buckets gain theirs, and every tuple's grant is re-issued |
| TriggerSetup.RunIdempotent | sam-app/shell/setup_s3_trigger.py:84-86 | when every tuple names the input or the common bucket, a rerun leaves the same state |
| TriggerSetup.RerunAccumulatesElsewhere | sam-app/shell/setup_s3_trigger.py:84-86 | a bucket outside the cleared pair gains its tuples' rules a second time on a rerun; S3 itself would refuse that second write, because a rule overlaps its own copy on the same event type, and the model does not check overlaps |
| TriggerSetup.RunEventsNoMetadata | sam-app/shell/setup_s3_trigger.py:59-61 | the loop never stores the response metadata |
| TriggerSetup.RunNoMetadata | sam-app/shell/setup_s3_trigger.py:82-107 | a run, complete or not, never stores the response metadata |
| TriggerSetup.MainEvents | sam-app/shell/setup_s3_trigger.py:119-124 | four tuples, each naming the input bucket or the common bucket |
| TriggerSetup.MainRules | sam-app/shell/setup_s3_trigger.py:119-124 | `main`'s tuples give the input bucket the `.json` then the `.tsv.gz` rule, and the common bucket the `input/` then the `input2/` rule |
| TriggerSetup.MainRunSucceeds | sam-app/shell/setup_s3_trigger.py:110-126 | `main`'s run completes exactly when both functions and both buckets exist |
| TriggerSetup.MainRunConfigures | sam-app/shell/setup_s3_trigger.py:119-126 | after `main`'s run, each of the two buckets holds its two rules in order, with `*.tsv.gz` verbatim, and a rerun changes nothing |
| TriggerSetup.Cloud.Fetch | sam-app/shell/setup_s3_trigger.py:59 | a read succeeds exactly for an existing bucket and returns its configuration plus the metadata |
| TriggerSetup.Cloud.PutNotificationConfiguration | sam-app/shell/setup_s3_trigger.py:104-106 | a write succeeds exactly for an existing bucket and a configuration without metadata; it replaces only that bucket and keeps `Valid` |
| TriggerSetup.Cloud.RemoveExistingPermission | sam-app/shell/setup_s3_trigger.py:13-18 | for an existing function the statement is gone afterwards; a missing statement or function is not an error, and then nothing changes |
| TriggerSetup.Cloud.AddLambdaPermission | sam-app/shell/setup_s3_trigger.py:21-30 | adds the invoke grant for S3 from the bucket's ARN and the account; refused for a missing function or a taken statement id |
| TriggerSetup.Cloud.CreateUniqueStatementId | sam-app/shell/setup_s3_trigger.py:71-79 | succeeds exactly when the function exists, and then the grant table is the re-issued one |
| TriggerSetup.Cloud.TriggerS3Event | sam-app/shell/setup_s3_trigger.py:47-68 | returns the merge of the new rule into the bucket's read configuration, or nothing when the bucket is missing or the append raises |
| TriggerSetup.Cloud.UpdateS3Notification | sam-app/shell/setup_s3_trigger.py:33-44 | succeeds exactly when the bucket exists and its Lambda entry is absent or a list; it then stores the merged configuration and keeps `Valid` |
| TriggerSetup.Cloud.ClearNotifications | sam-app/shell/setup_s3_trigger.py:84-86 | both buckets are emptied exactly when both exist; a missing input bucket stops before the common bucket is touched; `Valid` is kept |
| TriggerSetup.Cloud.ConfigureTuple | sam-app/shell/setup_s3_trigger.py:88-107 | one loop pass leaves exactly the state and the success flag of `Step`, and keeps `Valid` |
| TriggerSetup.Cloud.ConfigureAll | sam-app/shell/setup_s3_trigger.py:88-107 | the loop leaves exactly the state and the success flag of `RunEvents`, and keeps `Valid` |
| TriggerSetup.Cloud.CreateS3Trigger | sam-app/shell/setup_s3_trigger.py:82-107 | the new state and the success flag are exactly those of `Run` on the old state, and `Valid` is kept |

## Left out

- Reading `./config/target.json` is left out. The routing table is a parameter.
- `datetime.now()` is left out. Today's date is a parameter.
- The `TARGET_BUCKET` environment variable is left out. The target bucket is a parameter.
- The S3 `copy_object` call is reduced to its outcome: a boolean parameter. The model
  returns the request the handler issues.
- `print`, logging and `json.dumps` are left out. Response bodies are the messages before
  their JSON encoding.
- The boto3 clients, sessions and profiles are left out. The S3 and Lambda services are maps
  in the `Cloud` class: a bucket exists when it is a key of `buckets`, and a function exists
  when it is a key of `functions`.
- The STS account lookup is left out. The account id is a parameter.
- `main`'s client setup and the command-line check on `sys.argv` are left out. Only `main`'s
  tuple list is modelled (`MainEvents`).
- Service-side validation of overlapping notification rules is not modelled. Every write of
  a configuration without metadata to an existing bucket succeeds.
- Lambda's validation of statement ids is not modelled: 1 to 100 characters, each a letter,
  digit, `-` or `_`. The model accepts every id. A bucket name containing `.`, or an id longer
  than 100 characters, makes the real `add_permission` or `remove_permission` raise. The run
  then stops after both buckets have already been cleared. `RunEventsSucceeds` and
  `MainRunSucceeds` state when a run completes against the model's Lambda, which has no such
  limit.
- S3's assignment of an `Id` to each stored notification rule is not modelled: a write stores
  the configuration as written. The rules `BuildRule` makes carry no `Id`, and S3 assigns one
  to each on every write. Against S3, a rerun gives the same rules with new ids. So
  `RunIdempotent`, `MainRunConfigures` and the "exactly their tuples' rules" of
  `RunFinalConfigurations` hold up to those ids.
- Network failures and concurrent changes to the buckets or functions are not modelled.
- Topic and queue configurations are opaque values. The model keeps them but does not look
  into them.
- S3Copy.Handler: the message of a missing `Records`, `s3`, `bucket` or `object` field is not
  modelled. Only the empty record list is a failure; a record is a bucket and a key.
- S3Copy.DateSegment: years below 1000 are printed without zero padding, as glibc's
  `strftime` does for `%Y`. Python hands `%Y` to the platform's C library, and some C
  libraries pad it to four digits instead; the model follows glibc.
- TriggerSetup.MainRunConfigures: it assumes the input bucket's name differs from the
  common bucket's name. When they coincide, all four rules land in the one bucket.
