/** The copy handler (handler/s3copy.py): given the first record of an S3
    "object created" event it derives a routing id from the object key,
    decides between copying and doing nothing by the key's suffix, builds the
    date-partitioned destination key and maps the outcome to a response.

    The routing table (read from ./config/target.json in the source), today's
    date (datetime.now() in the source), the target bucket (the TARGET_BUCKET
    environment variable) and whether the server-side copy succeeds are all
    parameters here. */
module S3Copy {
  import opened Wrappers

  // ---------------------------------------------------------------------------
  // Data model
  // ---------------------------------------------------------------------------

  /** One record of the inbound event: the bucket and key of the new object. */
  datatype EventRecord = EventRecord(bucket: string, key: string)

  /** A calendar date, as a `datetime` value holds it. */
  datatype Date = Date(year: int, month: int, day: int)

  /** The ranges `datetime` guarantees for its fields. */
  predicate ValidDate(d: Date) {
    1 <= d.year <= 9999 && 1 <= d.month <= 12 && 1 <= d.day <= 31
  }

  /** The arguments of one `copy_object` call. */
  datatype CopyRequest = CopyRequest(sourceBucket: string, sourceKey: string,
                                     targetBucket: string, targetKey: string)

  /** The `{statusCode, body}` dictionary the handler returns; the body is the
      message before its JSON encoding. */
  datatype Response = Response(statusCode: int, body: string)

  /** What one invocation does: the response it returns and the copy request
      it issues, if any. */
  datatype Invocation = Invocation(response: Response, copy: Option<CopyRequest>)

  /** The one failure the handler lets escape: an event without records. */
  datatype HandlerError = MalformedEvent

  // ---------------------------------------------------------------------------
  // Key parsing
  // ---------------------------------------------------------------------------

  predicate EndsWith(s: string, suffix: string) {
    |suffix| <= |s| && s[|s| - |suffix|..] == suffix
  }

  /** `key.split("/")[-1]`: the longest suffix of `key` without a `/`. */
  function LastSegment(key: string): (seg: string)
    ensures '/' !in seg
    ensures EndsWith(key, seg)
    ensures seg == key || key[|key| - |seg| - 1] == '/'
  {
    if key == [] || key[|key| - 1] == '/' then []
    else LastSegment(key[..|key| - 1]) + [key[|key| - 1]]
  }

  /** The three properties in LastSegment's contract determine it. */
  lemma LastSegmentUnique(key: string, seg: string)
    requires '/' !in seg && EndsWith(key, seg)
    requires seg == key || key[|key| - |seg| - 1] == '/'
    ensures seg == LastSegment(key)
  {
  }

  /** `seg.split(".")[0]`: the longest prefix of `seg` without a `.`. */
  function Stem(seg: string): (stem: string)
    ensures '.' !in stem
    ensures stem <= seg
    ensures stem == seg || seg[|stem|] == '.'
  {
    if seg == [] || seg[0] == '.' then []
    else [seg[0]] + Stem(seg[1..])
  }

  /** The three properties in Stem's contract determine it. */
  lemma StemUnique(seg: string, stem: string)
    requires '.' !in stem && stem <= seg
    requires stem == seg || seg[|stem|] == '.'
    ensures stem == Stem(seg)
  {
  }

  /** The routing id: the last `/`-separated segment of the key, cut at its
      first `.`. It holds neither separator. */
  function RoutingId(key: string): (id: string)
    ensures '/' !in id && '.' !in id
    ensures id <= LastSegment(key)
  {
    var seg := LastSegment(key);
    var id := Stem(seg);
    assert forall i :: 0 <= i < |id| ==> id[i] == seg[i];
    id
  }

  /** The routing id is the whole last segment or stops at its first `.`;
      with RoutingId's contract these are Stem's three properties, which
      StemUnique shows determine it. */
  lemma RoutingIdStopsAtDot(key: string)
    ensures var seg := LastSegment(key);
      RoutingId(key) == seg || seg[|RoutingId(key)|] == '.'
  {
  }

  /** Only `.json` and `.tsv.gz` objects are copied. */
  predicate IsCopyable(key: string) {
    EndsWith(key, ".json") || EndsWith(key, ".tsv.gz")
  }

  /** A copyable key's last segment holds a `.`, so its routing id stops
      before the extension: `data.tsv.gz` is routed by `data`, not by the
      whole segment. */
  lemma CopyableIdDropsExtension(key: string)
    requires IsCopyable(key)
    ensures RoutingId(key) < LastSegment(key)
  {
    var seg := LastSegment(key);
    var ext := if EndsWith(key, ".json") then ".json" else ".tsv.gz";
    assert EndsWith(key, ext);
    assert '/' !in ext;
    assert seg[|seg| - |ext|..] == key[|key| - |ext|..];
    assert seg[|seg| - |ext|] == '.';
    assert RoutingId(key) != seg;
  }

  // ---------------------------------------------------------------------------
  // Date formatting (`strftime("%Y/%m/%d")`)
  // ---------------------------------------------------------------------------

  predicate IsDigit(c: char) {
    '0' <= c <= '9'
  }

  predicate AllDigits(s: string) {
    forall i :: 0 <= i < |s| ==> IsDigit(s[i])
  }

  function DigitChar(n: int): (c: char)
    requires 0 <= n < 10
    ensures IsDigit(c)
  {
    ('0' as int + n) as char
  }

  function DigitValue(c: char): int
    requires IsDigit(c)
  {
    c as int - '0' as int
  }

  /** The number a string of decimal digits denotes. */
  function DecimalValue(s: string): nat
    requires AllDigits(s)
  {
    if s == [] then 0
    else 10 * DecimalValue(s[..|s| - 1]) + DigitValue(s[|s| - 1])
  }

  lemma DecimalOfDigit(c: char)
    requires IsDigit(c)
    ensures DecimalValue([c]) == DigitValue(c)
  {
    assert [c][..0] == [];
  }

  /** The decimal numeral of `n`, without leading zeros. */
  function Decimal(n: nat): (s: string)
    ensures 1 <= |s| && AllDigits(s)
    ensures s[0] == '0' ==> n == 0
    ensures DecimalValue(s) == n
  {
    if n < 10 then DecimalOfDigit(DigitChar(n)); [DigitChar(n)]
    else
      var s := Decimal(n / 10) + [DigitChar(n % 10)];
      assert s[..|s| - 1] == Decimal(n / 10);
      s
  }

  /** A two-digit, zero-padded numeral (`%m`, `%d`). */
  function Pad2(n: int): (s: string)
    requires 0 <= n < 100
    ensures |s| == 2 && AllDigits(s)
    ensures DecimalValue(s) == n
  {
    var s := [DigitChar(n / 10), DigitChar(n % 10)];
    assert s[..1] == [s[0]];
    DecimalOfDigit(s[0]);
    s
  }

  /** The date segment `YYYY/MM/DD` of the destination key: digits
      everywhere except the two `/` separators before the month and the day. */
  function DateSegment(d: Date): (s: string)
    requires ValidDate(d)
    ensures |s| >= 7
    ensures forall i :: 0 <= i < |s| ==> (IsDigit(s[i]) <==> i != |s| - 6 && i != |s| - 3)
  {
    Decimal(d.year) + "/" + Pad2(d.month) + "/" + Pad2(d.day)
  }

  /** Reads a date segment back; the inverse of DateSegment. */
  function ParseDateSegment(s: string): Option<Date> {
    if |s| < 7 || s[|s| - 6] != '/' || s[|s| - 3] != '/' then None
    else if !AllDigits(s[..|s| - 6]) || !AllDigits(s[|s| - 5..|s| - 3]) || !AllDigits(s[|s| - 2..]) then None
    else Some(Date(DecimalValue(s[..|s| - 6]), DecimalValue(s[|s| - 5..|s| - 3]), DecimalValue(s[|s| - 2..])))
  }

  /** The date segment determines the date: year, month and day are read back. */
  lemma DateSegmentRoundTrip(d: Date)
    requires ValidDate(d)
    ensures ParseDateSegment(DateSegment(d)) == Some(d)
  {
    var s := DateSegment(d);
    var y, m, dd := Decimal(d.year), Pad2(d.month), Pad2(d.day);
    assert s == y + "/" + m + "/" + dd;
    assert s[..|s| - 6] == y;
    assert s[|s| - 5..|s| - 3] == m;
    assert s[|s| - 2..] == dd;
  }

  // ---------------------------------------------------------------------------
  // Lookup and handler
  // ---------------------------------------------------------------------------

  /** `get_target_key`: the routing table's entry for `prefix` followed by
      today's date segment; None when the table has no such entry (the
      KeyError that the handler's `try` catches). */
  function TargetKey(prefix: string, table: map<string, string>, today: Date): (r: Option<string>)
    requires ValidDate(today)
    ensures r.Some? <==> prefix in table
    ensures r.Some? ==> table[prefix] <= r.value && EndsWith(r.value, DateSegment(today))
  {
    if prefix in table then Some(table[prefix] + "/" + DateSegment(today)) else None
  }

  /** The response bodies, before their JSON encoding. */
  function SuccessBody(key: string): string { "Successfully copied " + key }
  function ErrorBody(key: string): string { "Error copying " + key }
  function NoActionBody(key: string): string { key + " is not a .json file. No action taken." }

  /** `handler`: reads only the first record; copies `.json` and `.tsv.gz`
      objects to `{target_prefix}/{YYYY/MM/DD}/{source_key}` in the target
      bucket. */
  function Handler(records: seq<EventRecord>, targetBucket: string, table: map<string, string>,
                   today: Date, copySucceeds: bool): (r: Result<Invocation, HandlerError>)
    requires ValidDate(today)
    ensures r.Failure? <==> records == []
    ensures r.Success? ==> r.value.response.statusCode in {200, 500}
    ensures r.Success? && r.value.copy.Some? ==> r.value.copy.value.sourceKey == records[0].key
    ensures r.Success? && r.value.response.statusCode == 500 ==> IsCopyable(records[0].key)
  {
    if records == [] then Failure(MalformedEvent)
    else
      var sourceBucket := records[0].bucket;
      var sourceKey := records[0].key;
      if IsCopyable(sourceKey) then
        match TargetKey(RoutingId(sourceKey), table, today)
        case None => Success(Invocation(Response(500, ErrorBody(sourceKey)), None))
        case Some(target) =>
          var request := CopyRequest(sourceBucket, sourceKey, targetBucket, target + "/" + sourceKey);
          if copySucceeds then Success(Invocation(Response(200, SuccessBody(sourceKey)), Some(request)))
          else Success(Invocation(Response(500, ErrorBody(sourceKey)), Some(request)))
      else
        Success(Invocation(Response(200, NoActionBody(sourceKey)), None))
  }

  // ---------------------------------------------------------------------------
  // Properties of the handler
  // ---------------------------------------------------------------------------

  /** A copy is requested exactly when the key has an accepted suffix and its
      routing id is mapped; any other suffix is a no-op with status 200. */
  lemma CopyOnlyForAcceptedSuffix(records: seq<EventRecord>, targetBucket: string,
                                  table: map<string, string>, today: Date, copySucceeds: bool)
    requires ValidDate(today) && records != []
    ensures var r := Handler(records, targetBucket, table, today, copySucceeds);
      && r.Success?
      && (r.value.copy.Some? <==> IsCopyable(records[0].key) && RoutingId(records[0].key) in table)
      && (!IsCopyable(records[0].key) ==> r.value.response == Response(200, NoActionBody(records[0].key)))
  {
  }

  /** When the key is accepted and mapped, exactly one copy request is made,
      from the event's bucket and key to the target bucket under the
      destination key; the status reports the copy's outcome. */
  lemma CopyRequestShape(records: seq<EventRecord>, targetBucket: string,
                         table: map<string, string>, today: Date, copySucceeds: bool)
    requires ValidDate(today) && records != []
    requires IsCopyable(records[0].key) && RoutingId(records[0].key) in table
    ensures var r := Handler(records, targetBucket, table, today, copySucceeds);
      var key := records[0].key;
      && r.Success?
      && r.value.copy == Some(CopyRequest(records[0].bucket, key, targetBucket,
                                          table[RoutingId(key)] + "/" + DateSegment(today) + "/" + key))
      && r.value.response == (if copySucceeds then Response(200, SuccessBody(key)) else Response(500, ErrorBody(key)))
  {
    var key := records[0].key;
    var target := table[RoutingId(key)] + "/" + DateSegment(today);
    var request := CopyRequest(records[0].bucket, key, targetBucket, target + "/" + key);
    assert TargetKey(RoutingId(key), table, today) == Some(target);
    assert Handler(records, targetBucket, table, today, copySucceeds)
        == Success(Invocation(if copySucceeds then Response(200, SuccessBody(key)) else Response(500, ErrorBody(key)),
                              Some(request)));
  }

  /** An unmapped routing id is caught like a copy failure: status 500, the
      error body, and no copy request. */
  lemma UnmappedIdIsError(records: seq<EventRecord>, targetBucket: string,
                          table: map<string, string>, today: Date, copySucceeds: bool)
    requires ValidDate(today) && records != []
    requires IsCopyable(records[0].key) && RoutingId(records[0].key) !in table
    ensures Handler(records, targetBucket, table, today, copySucceeds)
         == Success(Invocation(Response(500, ErrorBody(records[0].key)), None))
  {
  }

  /** A destination key `{target}/{YYYY/MM/DD}/{key}` starts with the target
      prefix and a `/`, ends with `/` and the whole source key, and the part
      between them reads back as the date. */
  lemma DestinationKeyEmbedsSource(target: string, today: Date, key: string)
    requires ValidDate(today)
    ensures var dest := target + "/" + DateSegment(today) + "/" + key;
      && target + "/" <= dest
      && EndsWith(dest, "/" + key)
      && ParseDateSegment(dest[|target| + 1..|dest| - |key| - 1]) == Some(today)
  {
    var d := DateSegment(today);
    var dest := target + "/" + d + "/" + key;
    assert dest == (target + "/") + d + ("/" + key);
    assert dest[|target| + 1..|dest| - |key| - 1] == d;
    DateSegmentRoundTrip(today);
  }

  /** Only the first record is read. */
  lemma OnlyFirstRecordMatters(records: seq<EventRecord>, targetBucket: string,
                               table: map<string, string>, today: Date, copySucceeds: bool)
    requires ValidDate(today) && records != []
    ensures Handler(records, targetBucket, table, today, copySucceeds)
         == Handler([records[0]], targetBucket, table, today, copySucceeds)
  {
  }

  /** The last segment of `a/b` is that of `b`. */
  lemma {:induction false} LastSegmentOfJoin(a: string, b: string)
    ensures LastSegment(a + "/" + b) == LastSegment(b)
  {
    if b == [] {
    } else {
      var c := b[|b| - 1];
      assert (a + "/" + b)[..|a + "/" + b| - 1] == a + "/" + b[..|b| - 1];
      if c != '/' {
        LastSegmentOfJoin(a, b[..|b| - 1]);
      }
    }
  }

  /** On one day and with one routing table, the destination key
      `{target_prefix}/{date}/{source_key}` determines the source key:
      distinct source keys never collide in the target bucket. */
  lemma DestinationKeysDistinct(k1: string, k2: string, table: map<string, string>, today: Date)
    requires ValidDate(today)
    requires TargetKey(RoutingId(k1), table, today).Some? && TargetKey(RoutingId(k2), table, today).Some?
    requires TargetKey(RoutingId(k1), table, today).value + "/" + k1
          == TargetKey(RoutingId(k2), table, today).value + "/" + k2
    ensures k1 == k2
  {
    var d := DateSegment(today);
    var t1, t2 := table[RoutingId(k1)], table[RoutingId(k2)];
    var dest := t1 + "/" + d + "/" + k1;
    assert dest == (t1 + "/" + d) + "/" + k1;
    assert dest == (t2 + "/" + d) + "/" + k2;
    LastSegmentOfJoin(t1 + "/" + d, k1);
    LastSegmentOfJoin(t2 + "/" + d, k2);
    assert RoutingId(k1) == RoutingId(k2);
    var p := t1 + "/" + d + "/";
    assert dest == p + k1 && dest == p + k2;
    assert k1 == dest[|p|..] == k2;
  }

  /** `%Y/%m/%d` on 2024-06-01: the month and the day are zero-padded. */
  lemma DateSegmentExample()
    ensures DateSegment(Date(2024, 6, 1)) == "2024/06/01"
  {
    YearExample();
    assert Pad2(6) == "06" && Pad2(1) == "01";
  }

  /** `%Y` on 2024. */
  lemma YearExample()
    ensures Decimal(2024) == "2024"
  {
    assert Decimal(2) == "2";
    assert Decimal(20) == "20";
    assert Decimal(202) == "202";
  }

  /** `input/test1.json` is routed by `test1` and is copied. */
  lemma RoutingIdExample()
    ensures RoutingId("input/test1.json") == "test1" && IsCopyable("input/test1.json")
  {
    var key := "input/test1.json";
    LastSegmentUnique(key, "test1.json");
    StemUnique("test1.json", "test1");
    assert key[|key| - 5..] == ".json";
  }

  lemma ScenarioDestinationKey(key: string, date: string)
    requires key == "input/test1.json" && date == "2024/06/01"
    ensures "test1_prefix" + "/" + date + "/" + key == "test1_prefix/2024/06/01/input/test1.json"
  {
  }

  /** A copy scenario: `input/test1.json` with the
      table {test1: test1_prefix} on 2024-06-01 is copied to
      `test1_prefix/2024/06/01/input/test1.json` in `example-bucket`. */
  lemma ScenarioJsonIsCopied(key: string, table: map<string, string>, today: Date)
    requires key == "input/test1.json" && table == map["test1" := "test1_prefix"] && today == Date(2024, 6, 1)
    ensures Handler([EventRecord("src", key)], "example-bucket", table, today, true)
         == Success(Invocation(Response(200, SuccessBody(key)),
                               Some(CopyRequest("src", key, "example-bucket",
                                                "test1_prefix/2024/06/01/input/test1.json"))))
  {
    DateSegmentExample();
    RoutingIdExample();
    CopyRequestShape([EventRecord("src", key)], "example-bucket", table, today, true);
    ScenarioDestinationKey(key, DateSegment(today));
  }

  /** The no-op scenario: `input/HappyFace.jpg` is left alone with status 200
      and no copy request, whatever the table and the date. */
  lemma ScenarioJpgIsIgnored(key: string, table: map<string, string>, today: Date, copySucceeds: bool)
    requires ValidDate(today) && key == "input/HappyFace.jpg"
    ensures Handler([EventRecord("src", key)], "example-bucket", table, today, copySucceeds)
         == Success(Invocation(Response(200, NoActionBody(key)), None))
  {
    assert !IsCopyable(key) by {
      assert key[|key| - 5..] != ".json";
      assert key[|key| - 7..] != ".tsv.gz";
    }
  }
}
