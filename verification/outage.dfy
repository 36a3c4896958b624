/** `get_interval` and `get_outage_data`: projecting the fetched documents
    and turning per-area outage counts into Datadog metric series.

    The clock is a parameter: each source's timestamp is the one taken
    right after that source's fetch. URLs are not modelled; each fetch is
    given the outcomes its transport would produce. */
module Outage {
  import opened Wrappers
  import opened Json
  import Fetch

  const MetricPrefix: string := "dte.outage."

  /** The two area sources, in the order `get_outage_data` visits them. */
  const County: string := "county"
  const ZipCode: string := "zip_code"

  const IntervalKey: string := "interval_generation_data"

  /** `MetricIntakeType.GAUGE`, the only intake type the program uses. */
  datatype IntakeType = Gauge

  /** A `MetricResource`: a name and a resource type. */
  datatype Resource = Resource(name: string, kind: string)

  /** The resource every series is attached to. */
  const Host: Resource := Resource("dte-outage", "host")

  /** One `MetricSeries` with its single point. */
  datatype MetricRecord = MetricRecord(
    metric: string,
    kind: IntakeType,
    timestamp: int,
    value: Value,
    tags: seq<string>,
    resources: seq<Resource>)

  /** What the program reads from one `file_data` entry: `desc.name`,
      `desc.cust_a.val` and `desc.cust_s`. The counts are passed through
      to the metric unexamined. */
  datatype Area = Area(name: string, current: Value, total: Value)

  /** Why a fetch-and-extract step failed. */
  datatype Failure = FetchFailed(fetch: Fetch.FetchError) | DataFailed(data: PyError)

  /** A result together with the requests issued and the sleeps requested. */
  datatype Fetched<T> = Fetched(result: Result<T, Failure>, requests: nat, sleeps: seq<nat>)

  // ---------------------------------------------------------------------
  // get_interval

  /** `json_data['data']['interval_generation_data']`. */
  function IntervalOf(doc: Value): (r: Result<Value, PyError>)
    ensures r.Ok? <==>
              && doc.Object? && "data" in doc.fields
              && doc.fields["data"].Object? && IntervalKey in doc.fields["data"].fields
    ensures r.Ok? ==> r.value == doc.fields["data"].fields[IntervalKey]
    ensures !doc.Object? ==> r == Err(TypeError)
    ensures doc.Object? && "data" !in doc.fields ==> r == Err(KeyError("data"))
  {
    var data :- Get(doc, "data");
    Get(data, IntervalKey)
  }

  /** Whatever else the document holds, the identifier nested under
      `data.interval_generation_data` is what comes back. */
  lemma IntervalOfCurrentState(id: Value, outer: map<string, Value>, inner: map<string, Value>)
    ensures IntervalOf(Object(outer["data" := Object(inner[IntervalKey := id])])) == Ok(id)
  {
  }

  /** `get_interval()` against a transport that would produce `outcomes`. */
  function GetInterval(outcomes: seq<Fetch.Outcome>): (f: Fetched<Value>)
    requires Fetch.Retries <= |outcomes|
    ensures var run := Fetch.GetJson(outcomes);
            && f.requests == run.attempts <= Fetch.Retries
            && f.sleeps == run.sleeps
            && (run.result.Err? ==> f.result == Err(FetchFailed(run.result.error)))
            && (run.result.Ok? ==> f.result.Ok? == IntervalOf(run.result.value).Ok?)
            && (run.result.Ok? && IntervalOf(run.result.value).Err? ==>
                  f.result == Err(DataFailed(IntervalOf(run.result.value).error)))
            && (f.result.Ok? ==> f.result.value == run.result.value.fields["data"].fields[IntervalKey])
  {
    var run := Fetch.GetJson(outcomes);
    var result :=
      match run.result
      case Err(e) => Err(FetchFailed(e))
      case Ok(doc) =>
        match IntervalOf(doc)
        case Ok(id) => Ok(id)
        case Err(e) => Err(DataFailed(e));
    Fetched(result, run.attempts, run.sleeps)
  }

  // ---------------------------------------------------------------------
  // Reading the area lists

  /** `entry` holds the area `a`: `desc.name` is the string `a.name`,
      `desc.cust_a.val` is `a.current` and `desc.cust_s` is `a.total`. */
  ghost predicate Describes(entry: Value, a: Area) {
    && entry.Object? && "desc" in entry.fields
    && var desc := entry.fields["desc"];
    && desc.Object?
    && "name" in desc.fields && desc.fields["name"] == Str(a.name)
    && "cust_a" in desc.fields && desc.fields["cust_a"].Object?
    && "val" in desc.fields["cust_a"].fields && desc.fields["cust_a"].fields["val"] == a.current
    && "cust_s" in desc.fields && desc.fields["cust_s"] == a.total
  }

  /** The fields of one `file_data` entry, read in the order main.py
      evaluates them: `desc.name`, then `desc.cust_a.val`, then the
      concatenation that needs the name to be a string, then `desc.cust_s`. */
  function DecodeArea(entry: Value): (r: Result<Area, PyError>)
    ensures r.Ok? ==> Describes(entry, r.value)
    ensures forall a :: Describes(entry, a) ==> r == Ok(a)
    ensures !entry.Object? ==> r == Err(TypeError)
    ensures entry.Object? && "desc" !in entry.fields ==> r == Err(KeyError("desc"))
  {
    var desc :- Get(entry, "desc");
    var name :- Get(desc, "name");
    var custA :- Get(desc, "cust_a");
    var current :- Get(custA, "val");
    if !name.Str? then Err(TypeError)
    else
      var total :- Get(desc, "cust_s");
      Ok(Area(name.s, current, total))
  }

  /** The entry a well-formed area list holds for `a`. */
  function EncodeArea(a: Area): (entry: Value)
    ensures Describes(entry, a)
  {
    Object(map["desc" := Object(map[
      "name" := Str(a.name),
      "cust_a" := Object(map["val" := a.current]),
      "cust_s" := a.total])])
  }

  /** Reading back an encoded area gives the area. */
  lemma DecodeEncodeArea(a: Area)
    ensures DecodeArea(EncodeArea(a)) == Ok(a)
  {
  }

  /** Every entry, in order; the first entry that cannot be read stops the
      whole source with its error. */
  function DecodeAreas(entries: seq<Value>): (r: Result<seq<Area>, PyError>)
    ensures r.Ok? <==> forall i :: 0 <= i < |entries| ==> DecodeArea(entries[i]).Ok?
    ensures r.Ok? ==> |r.value| == |entries| && forall i :: 0 <= i < |entries| ==> Describes(entries[i], r.value[i])
    ensures r.Err? ==> exists k :: FirstFailure(entries, k) && DecodeArea(entries[k]) == Err(r.error)
    decreases |entries|
  {
    if |entries| == 0 then Ok([])
    else
      match DecodeArea(entries[0])
      case Err(e) =>
        assert FirstFailure(entries, 0);
        Err(e)
      case Ok(a) =>
        var rest := DecodeAreas(entries[1..]);
        match rest
        case Err(e) =>
          assert exists k :: FirstFailure(entries, k) && DecodeArea(entries[k]) == Err(e) by {
            var k :| FirstFailure(entries[1..], k) && DecodeArea(entries[1..][k]) == Err(e);
            assert FirstFailure(entries, k + 1);
          }
          Err(e)
        case Ok(areas) =>
          assert forall i :: 0 < i < |entries| ==> entries[i] == entries[1..][i - 1];
          Ok([a] + areas)
  }

  /** `entries[k]` is the first entry that cannot be read. */
  ghost predicate FirstFailure(entries: seq<Value>, k: int) {
    && 0 <= k < |entries|
    && DecodeArea(entries[k]).Err?
    && forall i :: 0 <= i < k ==> DecodeArea(entries[i]).Ok?
  }

  /** `for data in json_data['file_data']`, reading each entry. */
  function AreaList(doc: Value): (r: Result<seq<Area>, PyError>)
    ensures r.Ok? ==> doc.Object? && "file_data" in doc.fields
    ensures doc.Object? && "file_data" in doc.fields && doc.fields["file_data"].Array? ==>
              var items := doc.fields["file_data"].items;
              && (r.Ok? <==> forall i :: 0 <= i < |items| ==> DecodeArea(items[i]).Ok?)
              && (r.Ok? ==> |r.value| == |items| && forall i :: 0 <= i < |items| ==> Describes(items[i], r.value[i]))
    ensures !doc.Object? ==> r == Err(TypeError)
    ensures doc.Object? && "file_data" !in doc.fields ==> r == Err(KeyError("file_data"))
  {
    var file :- Get(doc, "file_data");
    var entries :- Elements(file);
    DecodeAreas(entries)
  }

  // ---------------------------------------------------------------------
  // Building the metric series

  /** One series of one source's area at the source's timestamp. */
  function Series(source: string, suffix: string, name: string, value: Value, ts: int): MetricRecord {
    MetricRecord(MetricPrefix + source + "." + suffix, Gauge, ts, value, [source + ":" + name], [Host])
  }

  /** `current` and `total` are the two series the program emits for area
      `a` of `source`, fetched at `ts`. */
  ghost predicate ReportsArea(current: MetricRecord, total: MetricRecord, source: string, a: Area, ts: int) {
    && current.metric == "dte.outage." + source + ".current"
    && total.metric == "dte.outage." + source + ".total"
    && current.value == a.current
    && total.value == a.total
    && current.tags == [source + ":" + a.name]
    && total.tags == [source + ":" + a.name]
    && current.timestamp == ts && total.timestamp == ts
    && current.kind == Gauge && total.kind == Gauge
    && current.resources == [Host] && total.resources == [Host]
  }

  /** The inner loop of `get_outage_data` for one source: two series per
      area, in list order. */
  function SourceMetrics(source: string, areas: seq<Area>, ts: int): (rs: seq<MetricRecord>)
    ensures |rs| == 2 * |areas|
    ensures forall i :: 0 <= i < |areas| ==> ReportsArea(rs[2 * i], rs[2 * i + 1], source, areas[i], ts)
    decreases |areas|
  {
    if |areas| == 0 then []
    else
      var a := areas[0];
      var rest := SourceMetrics(source, areas[1..], ts);
      var rs := [Series(source, "current", a.name, a.current, ts), Series(source, "total", a.name, a.total, ts)] + rest;
      assert ReportsArea(rs[0], rs[1], source, areas[0], ts) by {
        SeriesReportArea(source, a, ts);
      }
      assert forall i :: 1 <= i < |areas| ==> ReportsArea(rs[2 * i], rs[2 * i + 1], source, areas[i], ts) by {
        forall i | 1 <= i < |areas|
          ensures ReportsArea(rs[2 * i], rs[2 * i + 1], source, areas[i], ts)
        {
          assert rs[2 * i] == rest[2 * (i - 1)];
          assert rs[2 * i + 1] == rest[2 * (i - 1) + 1];
          assert areas[i] == areas[1..][i - 1];
        }
      }
      rs
  }

  /** The two series built for an area report it. */
  lemma SeriesReportArea(source: string, a: Area, ts: int)
    ensures ReportsArea(Series(source, "current", a.name, a.current, ts), Series(source, "total", a.name, a.total, ts), source, a, ts)
  {
  }

  /** `get_outage_data` with the two sources already read: every county
      area, then every zip-code area, each source at its own timestamp. */
  function OutageData(county: seq<Area>, zipCode: seq<Area>, countyTs: int, zipTs: int): (rs: seq<MetricRecord>)
    ensures |rs| == 2 * (|county| + |zipCode|)
    ensures forall i :: 0 <= i < |county| ==>
              ReportsArea(rs[2 * i], rs[2 * i + 1], County, county[i], countyTs)
    ensures forall j :: 0 <= j < |zipCode| ==>
              ReportsArea(rs[2 * |county| + 2 * j], rs[2 * |county| + 2 * j + 1], ZipCode, zipCode[j], zipTs)
  {
    var c := SourceMetrics(County, county, countyTs);
    var z := SourceMetrics(ZipCode, zipCode, zipTs);
    assert forall j :: 0 <= j < |zipCode| ==>
      (c + z)[2 * |county| + 2 * j] == z[2 * j] && (c + z)[2 * |county| + 2 * j + 1] == z[2 * j + 1];
    c + z
  }

  /** `get_outage_data(interval_uuid)`: fetch the county list, read it,
      then fetch the zip-code list and read it. A failure at any step ends
      the call with nothing emitted, and a failed county step means the
      zip-code list is never requested. */
  function GetOutageData(countyOutcomes: seq<Fetch.Outcome>, zipOutcomes: seq<Fetch.Outcome>, countyTs: int, zipTs: int): (f: Fetched<seq<MetricRecord>>)
    requires Fetch.Retries <= |countyOutcomes| && Fetch.Retries <= |zipOutcomes|
    ensures var c := Fetch.GetJson(countyOutcomes);
            var z := Fetch.GetJson(zipOutcomes);
            var countyRead := c.result.Ok? && AreaList(c.result.value).Ok?;
            && f.requests <= 2 * Fetch.Retries
            && (countyRead ==> f.requests == c.attempts + z.attempts && f.sleeps == c.sleeps + z.sleeps)
            && (!countyRead ==> f.requests == c.attempts && f.sleeps == c.sleeps && f.result.Err?)
            // the failing step's own error is what propagates
            && (c.result.Err? ==> f.result == Err(FetchFailed(c.result.error)))
            && (c.result.Ok? && AreaList(c.result.value).Err? ==>
                  f.result == Err(DataFailed(AreaList(c.result.value).error)))
            && (countyRead && z.result.Err? ==> f.result == Err(FetchFailed(z.result.error)))
            && (countyRead && z.result.Ok? && AreaList(z.result.value).Err? ==>
                  f.result == Err(DataFailed(AreaList(z.result.value).error)))
            && (f.result.Ok? <==> countyRead && z.result.Ok? && AreaList(z.result.value).Ok?)
            && (f.result.Ok? ==>
                  f.result.value == OutageData(AreaList(c.result.value).value, AreaList(z.result.value).value, countyTs, zipTs))
  {
    var c := Fetch.GetJson(countyOutcomes);
    match c.result
    case Err(e) => Fetched(Err(FetchFailed(e)), c.attempts, c.sleeps)
    case Ok(countyDoc) =>
      match AreaList(countyDoc)
      case Err(e) => Fetched(Err(DataFailed(e)), c.attempts, c.sleeps)
      case Ok(county) =>
        var z := Fetch.GetJson(zipOutcomes);
        var requests := c.attempts + z.attempts;
        var sleeps := c.sleeps + z.sleeps;
        match z.result
        case Err(e) => Fetched(Err(FetchFailed(e)), requests, sleeps)
        case Ok(zipDoc) =>
          match AreaList(zipDoc)
          case Err(e) => Fetched(Err(DataFailed(e)), requests, sleeps)
          case Ok(zipCode) => Fetched(Ok(OutageData(county, zipCode, countyTs, zipTs)), requests, sleeps)
  }

  // ---------------------------------------------------------------------
  // Reading the areas back from the series

  /** The area name in a tag `source:name`. */
  function TagName(source: string, tags: seq<string>): string {
    if |tags| == 1 && |source| + 1 <= |tags[0]| then tags[0][|source| + 1..] else ""
  }

  /** The areas a list of series reports, reading them two at a time. */
  function AreasOf(source: string, rs: seq<MetricRecord>): seq<Area>
    decreases |rs|
  {
    if |rs| < 2 then []
    else [Area(TagName(source, rs[0].tags), rs[0].value, rs[1].value)] + AreasOf(source, rs[2..])
  }

  /** The series of one source lose no area and keep the list order: every
      area's name and both counts can be read back from them. */
  lemma {:induction false} SourceMetricsKeepEveryArea(source: string, areas: seq<Area>, ts: int)
    ensures AreasOf(source, SourceMetrics(source, areas, ts)) == areas
    decreases |areas|
  {
    if |areas| > 0 {
      var a := areas[0];
      var rest := SourceMetrics(source, areas[1..], ts);
      var rs := SourceMetrics(source, areas, ts);
      var current := Series(source, "current", a.name, a.current, ts);
      var total := Series(source, "total", a.name, a.total, ts);
      assert rs == [current, total] + rest;
      assert rs[2..] == rest;
      assert TagName(source, current.tags) == a.name by {
        assert (source + ":" + a.name)[|source| + 1..] == a.name;
      }
      assert AreasOf(source, rs) == [a] + AreasOf(source, rest);
      SourceMetricsKeepEveryArea(source, areas[1..], ts);
      assert areas == [a] + areas[1..];
    }
  }

  /** A document whose `file_data` holds one entry describing `a` reads as
      the list `[a]`. */
  lemma SingleEntryAreaList(entry: Value, a: Area)
    requires Describes(entry, a)
    ensures AreaList(Object(map["file_data" := Array([entry])])) == Ok([a])
  {
    var r := DecodeAreas([entry]);
    assert r.Ok? && |r.value| == 1 && Describes(entry, r.value[0]);
    assert DecodeArea(entry) == Ok(r.value[0]);
    assert r.value == [a];
  }

  /** A `file_data` that is not a list reads as no areas when it is an empty
      string or an empty dictionary, and otherwise raises `TypeError`: a
      non-empty string yields strings and a non-empty dictionary yields key
      strings, neither of which can be subscripted with `'desc'`, and null,
      booleans and numbers are not iterable. */
  lemma AreaListOfNonList(doc: Value)
    requires doc.Object? && "file_data" in doc.fields && !doc.fields["file_data"].Array?
    ensures var f := doc.fields["file_data"];
            AreaList(doc) == if f == Str("") || f == Object(map[]) then Ok([]) else Err(TypeError)
  {
    var f := doc.fields["file_data"];
    if f.Str? && |f.s| > 0 {
      assert DecodeArea(Elements(f).value[0]).Err?;
    }
    if f.Object? && |f.fields| == 0 {
      assert f.fields == map[];
    }
  }

  /** An empty `file_data`, whether an empty list, an empty string or an
      empty dictionary, reads as no areas and so gives no series. */
  lemma EmptyFileDataGivesNoSeries(empty: Value, ts: int)
    requires empty == Array([]) || empty == Str("") || empty == Object(map[])
    ensures AreaList(Object(map["file_data" := empty])) == Ok([])
    ensures SourceMetrics(County, [], ts) == [] && SourceMetrics(ZipCode, [], ts) == []
  {
    assert Elements(empty) == Ok([]);
  }

  /** A county list holding only Wayne, with 12 customers out of 300:
      two series tagged `county:Wayne`, valued 12 and 300. */
  lemma WayneCountyExample(ts: int)
    ensures var wayne := Object(map["desc" := Object(map[
                           "name" := Str("Wayne"),
                           "cust_a" := Object(map["val" := Number(12)]),
                           "cust_s" := Number(300)])]);
            var doc := Object(map["file_data" := Array([wayne])]);
            && AreaList(doc) == Ok([Area("Wayne", Number(12), Number(300))])
            && var rs := SourceMetrics(County, AreaList(doc).value, ts);
            && |rs| == 2
            && rs[0].metric == "dte.outage.county.current" && rs[0].value == Number(12)
            && rs[1].metric == "dte.outage.county.total" && rs[1].value == Number(300)
            && rs[0].tags == rs[1].tags == ["county:Wayne"]
  {
    var area := Area("Wayne", Number(12), Number(300));
    var wayne := EncodeArea(area);
    SingleEntryAreaList(wayne, area);
    var rs := SourceMetrics(County, [area], ts);
    assert ReportsArea(rs[0], rs[1], County, area, ts);
    assert County + ":" + "Wayne" == "county:Wayne";
  }
}
