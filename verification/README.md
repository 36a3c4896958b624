# datadog-dte-outage: retry loop and metric builder

This project models the two pieces of logic in `main.py` of
datadog-dte-outage. The program scrapes the DTE Energy outage map and sends
Datadog metrics. The model proves properties about those two pieces.

- **`get_json`**: fetches a URL as JSON inside a `for` loop of at most ten
  attempts. Statuses 429, 500, 502, 503 and 504 are retried. Any other HTTP
  error is re-raised. A timeout is retried. After a retried failure on
  zero-indexed attempt `k`, the program sleeps `k` seconds. If the loop ends
  without `break`, the program calls `response.json()` on whatever response
  was bound last. That is the last error response, or nothing at all when
  every attempt timed out.
- **`get_interval`**: reads `data.interval_generation_data` from the
  fetched document.
- **`get_outage_data`**: fetches the county area list and then the
  zip-code area list. For every entry of `file_data` it emits two gauge
  series, `dte.outage.<source>.current` and `dte.outage.<source>.total`.
  Both are tagged `<source>:<name>` and stamped with the timestamp taken
  right after that source's fetch.

Files:

- `wrappers.dfy`: `Option` and `Result`.
- `json.dfy`: decoded JSON values. It also models Python's `v[key]`
  subscripting and `for x in v` iteration, with the `KeyError` and
  `TypeError` they raise.
- `fetch.dfy`: module `Fetch`, which models `get_json`. The transport is a
  sequence of per-attempt outcomes: a response (status and decoded body, or
  a body that is not JSON), a timeout, or any other exception. The module
  defines the loop as a pure function (`Loop`, `GetJson`). It also gives
  the loop as main.py writes it, as a method (`FetchJson`), and proves
  the two equal. Requested sleeps are recorded, not performed.
- `outage.dfy`: module `Outage`, which models `get_interval` and
  `get_outage_data`. It reads each JSON entry in the order main.py
  evaluates it, builds the metric series, and composes both with `GetJson`.

Modelling decisions:

- `raise_for_status` belongs to the `requests` library. The model follows
  its documented behaviour: it raises for every status from 400 to 599.
- The two per-source timestamps are parameters. So are the outcome
  sequences of the transport.
- The interval identifier only shapes URLs. URLs are not modelled, so
  `GetOutageData` takes one outcome sequence per source instead of the
  identifier.
- Iterating a non-empty dictionary `file_data` yields key strings, and
  `key['desc']` raises `TypeError` on them. The model reports that error
  directly. An empty dictionary yields no entries.

## Model

| member | source | states |
|---|---|---|
| Fetch.Attempt | main.py:34-50 | One attempt's outcome leads to a sleep-and-retry exactly when it is a timeout or an HTTP error with a retryable status. Only a response rebinds `response`. |
| Fetch.Loop | main.py:33-50 | From attempt `retry` onwards, the loop stops on the first outcome it does not retry, or after the tenth attempt. Each retried attempt adds a sleep equal to its index. On exhaustion the result comes from the last response bound. |
| Fetch.GetJson | main.py:28-51 | Between 1 and 10 requests are issued. Every request before the last one was retried. The sleeps are 0, 1, ..., up to the number of retried attempts. The result is chosen by the stopping outcome: a transport exception, a re-raised HTTP error, or the decoded success body. When all ten attempts were retried, it is `json()` of the last response received, or a failure when none was received. |
| Fetch.FetchJson | main.py:28-51 | The imperative `for`/`break`/`continue`/`raise` loop returns exactly the result, request count and sleeps of `GetJson`. |
| Fetch.LatestIsLastReceived | main.py:33-51 | The response `json()` is called on after the loop is the one delivered by the last attempt that received a response. If no attempt did, it is the prior binding. |
| Fetch.LoopReadsOnlyItsAttempts | main.py:33-37 | The loop's behaviour depends only on the outcomes of the attempts it actually makes. |
| Fetch.GetJsonReadsOnlyItsAttempts | main.py:35-37 | Outcomes after the attempt `get_json` stops on are never consumed. |
| Fetch.FirstStopEndsCall | main.py:33-45 | The first attempt that is not retried ends the call as attempt k + 1, after sleeps 0, ..., k - 1. |
| Fetch.SuccessIsReturned | main.py:35-51 | The first response that passes `raise_for_status` is decoded and returned after k + 1 requests. |
| Fetch.NonRetryableStatusIsRaised | main.py:38-45 | An HTTP error outside {429, 500, 502, 503, 504} is re-raised after its own attempt, with no further request. |
| Fetch.RetriedAttemptSleepsItsIndex | main.py:41-50 | A retried failure on attempt k is followed by a sleep of exactly k seconds. Unless it was the tenth attempt, another request follows. |
| Fetch.AllTimeoutsFindNoResponse | main.py:46-51 | Ten timeouts raise nothing for the timeouts themselves. The call still fails because `response` was never bound, after 10 requests and sleeps 0..9. |
| Fetch.ExhaustionReturnsLastErrorBody | main.py:33-51 | Ten retried failures, some with a response, return `json()` of the last response received. That response has a retryable error status. |
| Fetch.RateLimitedTwiceThenOk | main.py:33-51 | The statuses 429, 429, 200 give three requests, sleeps [0, 1], and the 200 body. |
| Fetch.NotFoundFailsAtOnce | main.py:38-45 | A 404 on the first request gives one request, no sleep, and the 404 error. |
| Outage.IntervalOf | main.py:61 | The result is the value at `data.interval_generation_data`, and exists exactly when both levels are dictionaries holding the keys. A non-dictionary raises `TypeError`. A missing `data` raises `KeyError`. |
| Outage.IntervalOfCurrentState | main.py:61 | Whatever other fields a current-state document holds, the nested identifier is returned. |
| Outage.GetInterval | main.py:54-61 | `get_interval` issues the requests of one `get_json` call. It fails with the fetch error, or succeeds exactly when the projection does, returning the nested field. When the projection fails, its own `KeyError` or `TypeError` is what propagates. |
| Outage.DecodeArea | main.py:82-106 | An entry is read exactly when it describes an area (`desc.name` a string, `desc.cust_a.val`, `desc.cust_s`), and that area is returned. A non-dictionary raises `TypeError`. A missing `desc` raises `KeyError`. |
| Outage.EncodeArea | main.py:82-106 | The entry built for an area describes that area. |
| Outage.DecodeEncodeArea | main.py:82-106 | Reading back an encoded area gives that area. |
| Outage.DecodeAreas | main.py:81-116 | A list is read exactly when every entry is. The result then has one area per entry, in order. Otherwise the error is that of the first unreadable entry. |
| Outage.AreaList | main.py:78-81 | `file_data` of a fetched document is read entry by entry. For a list, success holds exactly when every entry describes an area, and gives one area per entry. A missing `file_data` raises `KeyError`. |
| Outage.SourceMetrics | main.py:81-116 | Each area produces exactly two series, in list order. Series 2i is `dte.outage.<source>.current` valued `cust_a.val`, and series 2i+1 is `.total` valued `cust_s`. Both are tagged `[<source>:<name>]`, are gauges on host `dte-outage`, and carry the source's single timestamp. |
| Outage.SeriesReportArea | main.py:83-116 | The two series built for one area have the names, values, tags, timestamp, type and resource promised for it. |
| Outage.SourceMetricsKeepEveryArea | main.py:81-116 | Every area's name and both counts can be read back from a source's series, in the original order. |
| Outage.OutageData | main.py:71-117 | There are 2·(county + zip-code) series. All county series come first, stamped with the county timestamp, then all zip-code series, stamped with the zip-code timestamp. Each source keeps its list order. |
| Outage.GetOutageData | main.py:64-117 | The county list is fetched and read before the zip-code list is requested. If the county step fails, there is no second request and nothing is emitted. Success holds exactly when both fetches and both reads succeed, and yields `OutageData` of the two lists. On failure, the error is that of the first failing step: a fetch error or the read's own `KeyError`/`TypeError`. At most 20 requests are made. |
| Outage.SingleEntryAreaList | main.py:78-81 | A document whose `file_data` holds one entry describing an area reads as the one-element list of that area. |
| Outage.AreaListOfNonList | main.py:81-82 | For any document whose `file_data` is not a list: an empty string or empty dictionary reads as no areas, and every other value raises `TypeError` (a non-empty string or dictionary yields strings that cannot be subscripted with `'desc'`; null, booleans and numbers are not iterable). |
| Outage.EmptyFileDataGivesNoSeries | main.py:81-116 | An empty list, empty string or empty dictionary as `file_data` reads as no areas, without error, and gives no series. |
| Outage.WayneCountyExample | main.py:81-116 | A county list holding Wayne (12 out of 300) gives two series tagged `county:Wayne`, valued 12 and 300. |

## Left out

- `requests.get` and the network: the transport is a given sequence of outcomes, with at least ten entries.
- `time.sleep`: durations are recorded, not slept.
- `datetime.now()`: each source's timestamp is a parameter.
- Logging and the hard-coded URLs: these are constants with no effect on results.
- `submit_outage_data` and `submit_health_check`: these are calls into the Datadog client with no logic beyond logging its errors.
- `main`: it is an endless loop of the modelled calls plus the submissions, with no failure handling.
- JSON numbers are integers. Floating-point values are not represented.
- The Datadog client's own validation of `MetricPoint` values: series values are passed through as the raw JSON the program read.
- ETag caching, `Retry-After`, HTML detection, jitter, the circuit breaker and graceful shutdown: they are not part of `main.py`.
