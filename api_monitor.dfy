/**
 * Usage statistics per backend API: request counters, token totals,
 * response times, per-day and per-month buckets, and the twenty most recent
 * requests, newest first. Timestamps are parameters, and the persisted
 * statistics are the constructor's input.
 */
module ApiMonitor {
  import opened Wrappers
  import opened Sorting

  /** The APIs the monitor tracks. */
  const APIS: seq<string> := ["tavily", "deepseek", "openai"]

  /** How many recent requests are kept. */
  const RECENT_LIMIT: nat := 20

  /**
   * A minimum that starts at +∞. `JSON.stringify` writes +∞ as `null`, so a
   * minimum read back from the persisted file before any timed request is
   * `Null`.
   */
  datatype Bound = PlusInfinity | Finite(ms: real) | Null

  /** `Math.min(b, x)`, where `null` reads as 0. */
  function MinBound(b: Bound, x: real): (r: Bound)
    ensures r.Finite? && r.ms <= x
    ensures b.PlusInfinity? ==> r == Finite(x)
    ensures b.Finite? ==> r.ms <= b.ms && (r.ms == b.ms || r.ms == x)
    ensures b.Null? ==> r.ms <= 0.0 && (r.ms == 0.0 || r.ms == x)
  {
    match b
    case PlusInfinity => Finite(x)
    case Finite(m) => if m <= x then b else Finite(x)
    case Null => if 0.0 <= x then Finite(0.0) else Finite(x)
  }

  /** Requests and tokens of one day or month (the cost is not modelled). */
  datatype Bucket = Bucket(requests: nat, tokens: int)

  const EMPTY_BUCKET: Bucket := Bucket(0, 0)

  datatype Tokens = Tokens(input: Option<int>, output: Option<int>)

  /** The optional `data` of a `logRequest` call. */
  datatype RequestData = RequestData(
    success: Option<bool>,
    tokens: Option<Tokens>,
    model: Option<string>,
    response_time_ms: Option<real>,
    error: Option<string>)

  /** One entry of `recent_requests`. */
  datatype Recent = Recent(
    timestamp: string,
    operation: string,
    response_time_ms: Option<real>,
    tokens: Option<Tokens>,
    model: Option<string>,
    success: bool,
    error: Option<string>)

  datatype ApiStats = ApiStats(
    total_requests: nat,
    successful_requests: nat,
    failed_requests: nat,
    input_tokens: int,
    output_tokens: int,
    total_tokens: int,
    avg_response_time_ms: real,
    min_response_time_ms: Bound,
    max_response_time_ms: real,
    total_response_time_ms: real,
    daily: map<string, Bucket>,
    monthly: map<string, Bucket>,
    recent_requests: seq<Recent>)

  /** `createEmptyStats()`: no requests, no tokens, a minimum time of +∞. */
  const EMPTY_STATS: ApiStats :=
    ApiStats(0, 0, 0, 0, 0, 0, 0.0, PlusInfinity, 0.0, 0.0, map[], map[], [])

  /** What every API's statistics keep: the counters and token totals add up, the log is bounded. */
  predicate Consistent(s: ApiStats) {
    && s.total_requests == s.successful_requests + s.failed_requests
    && s.total_tokens == s.input_tokens + s.output_tokens
    && |s.recent_requests| <= RECENT_LIMIT
  }

  /** `data.success !== false` */
  predicate Succeeded(data: RequestData) {
    data.success != Some(false)
  }

  /** `data.tokens.input || 0`, or nothing without tokens. */
  function InputTokens(data: RequestData): int {
    if data.tokens.Some? then data.tokens.value.input.GetOr(0) else 0
  }

  /** `data.tokens.output || 0`, or nothing without tokens. */
  function OutputTokens(data: RequestData): int {
    if data.tokens.Some? then data.tokens.value.output.GetOr(0) else 0
  }

  function TokenCount(data: RequestData): int {
    InputTokens(data) + OutputTokens(data)
  }

  function Max(a: real, b: real): (r: real)
    ensures r >= a && r >= b && (r == a || r == b)
  {
    if a >= b then a else b
  }

  /** `now.toISOString().split('T')[0]`: the text before the first `T`. */
  function DateKey(timestamp: string): (r: string)
    ensures |r| <= |timestamp| && r == timestamp[..|r|]
    ensures 'T' !in r
    ensures |r| == |timestamp| || timestamp[|r|] == 'T'
  {
    if timestamp == [] || timestamp[0] == 'T' then []
    else [timestamp[0]] + DateKey(timestamp[1..])
  }

  /** `dateKey.substring(0, 7)`: the first seven characters, or all of a shorter text. */
  function MonthKey(date: string): (r: string)
    ensures |r| <= 7 && |r| <= |date| && r == date[..|r|]
    ensures |r| == if |date| < 7 then |date| else 7
  {
    if |date| <= 7 then date else date[..7]
  }

  /** One more request, and its tokens, in a bucket that may not exist yet. */
  function Bump(buckets: map<string, Bucket>, key: string, tokens: int): (r: map<string, Bucket>)
    ensures r.Keys == buckets.Keys + {key}
    ensures r[key].requests == (if key in buckets then buckets[key].requests else 0) + 1
    ensures r[key].tokens == (if key in buckets then buckets[key].tokens else 0) + tokens
    ensures forall k :: k in buckets && k != key ==> r[k] == buckets[k]
  {
    var b := if key in buckets then buckets[key] else EMPTY_BUCKET;
    buckets[key := Bucket(b.requests + 1, b.tokens + tokens)]
  }

  function RecentEntry(operation: string, data: RequestData, timestamp: string): Recent {
    Recent(timestamp, operation, data.response_time_ms, data.tokens, data.model, Succeeded(data), data.error)
  }

  /**
   * The statistics of one API after `logRequest`: one more request counted
   * as a success or a failure, the tokens added, the response time folded in
   * when there is one, a request more in today's and this month's buckets,
   * and the request at the head of the recent list.
   */
  function Logged(s: ApiStats, operation: string, data: RequestData, timestamp: string): (r: ApiStats)
    ensures r.total_requests == s.total_requests + 1
    ensures Succeeded(data) ==> r.successful_requests == s.successful_requests + 1 && r.failed_requests == s.failed_requests
    ensures !Succeeded(data) ==> r.failed_requests == s.failed_requests + 1 && r.successful_requests == s.successful_requests
    ensures r.input_tokens == s.input_tokens + InputTokens(data)
    ensures r.output_tokens == s.output_tokens + OutputTokens(data)
    ensures r.total_tokens == s.total_tokens + TokenCount(data)
    ensures data.response_time_ms.Some? ==>
      && r.total_response_time_ms == s.total_response_time_ms + data.response_time_ms.value
      && r.avg_response_time_ms == r.total_response_time_ms / r.total_requests as real
      && r.min_response_time_ms == MinBound(s.min_response_time_ms, data.response_time_ms.value)
      && r.max_response_time_ms == Max(s.max_response_time_ms, data.response_time_ms.value)
    ensures data.response_time_ms.None? ==>
      && r.total_response_time_ms == s.total_response_time_ms && r.avg_response_time_ms == s.avg_response_time_ms
      && r.min_response_time_ms == s.min_response_time_ms && r.max_response_time_ms == s.max_response_time_ms
    ensures r.daily == Bump(s.daily, DateKey(timestamp), TokenCount(data))
    ensures r.monthly == Bump(s.monthly, MonthKey(DateKey(timestamp)), TokenCount(data))
    ensures r.recent_requests == Take([RecentEntry(operation, data, timestamp)] + s.recent_requests, RECENT_LIMIT)
    ensures |r.recent_requests| <= RECENT_LIMIT && r.recent_requests[0] == RecentEntry(operation, data, timestamp)
  {
    var total := s.total_requests + 1;
    var rt := data.response_time_ms;
    ApiStats(
      total,
      if Succeeded(data) then s.successful_requests + 1 else s.successful_requests,
      if Succeeded(data) then s.failed_requests else s.failed_requests + 1,
      s.input_tokens + InputTokens(data),
      s.output_tokens + OutputTokens(data),
      s.total_tokens + TokenCount(data),
      if rt.Some? then (s.total_response_time_ms + rt.value) / total as real else s.avg_response_time_ms,
      if rt.Some? then MinBound(s.min_response_time_ms, rt.value) else s.min_response_time_ms,
      if rt.Some? then Max(s.max_response_time_ms, rt.value) else s.max_response_time_ms,
      if rt.Some? then s.total_response_time_ms + rt.value else s.total_response_time_ms,
      Bump(s.daily, DateKey(timestamp), TokenCount(data)),
      Bump(s.monthly, MonthKey(DateKey(timestamp)), TokenCount(data)),
      Take([RecentEntry(operation, data, timestamp)] + s.recent_requests, RECENT_LIMIT))
  }

  /** Logging keeps the counters and token totals in step and the recent list bounded. */
  lemma {:induction false} LoggedConsistent(s: ApiStats, operation: string, data: RequestData, timestamp: string)
    requires Consistent(s)
    ensures Consistent(Logged(s, operation, data, timestamp))
  {
  }

  /** One `logRequest` call: operation, data and timestamp. */
  datatype Call = Call(operation: string, data: RequestData, timestamp: string)

  /** The statistics after a series of calls, oldest first. */
  function LogAll(s: ApiStats, calls: seq<Call>): (r: ApiStats)
    ensures r.total_requests == s.total_requests + |calls|
    decreases |calls|
  {
    if calls == [] then s
    else
      var c := calls[|calls| - 1];
      Logged(LogAll(s, calls[..|calls| - 1]), c.operation, c.data, c.timestamp)
  }

  /**
   * Whatever was logged since the last reset, every request is either a
   * success or a failure, the token total is the sum of input and output,
   * and at most twenty requests are remembered.
   */
  lemma {:induction false} LogAllConsistent(calls: seq<Call>)
    ensures Consistent(LogAll(EMPTY_STATS, calls))
    ensures LogAll(EMPTY_STATS, calls).total_requests == |calls|
    decreases |calls|
  {
    if calls != [] {
      var c := calls[|calls| - 1];
      LogAllConsistent(calls[..|calls| - 1]);
      LoggedConsistent(LogAll(EMPTY_STATS, calls[..|calls| - 1]), c.operation, c.data, c.timestamp);
    }
  }

  /** The recent list keeps the newest requests, newest first: the previous head moves to second place. */
  lemma {:induction false} RecentNewestFirst(s: ApiStats, operation: string, data: RequestData, timestamp: string)
    requires |s.recent_requests| > 0
    ensures Logged(s, operation, data, timestamp).recent_requests[1] == s.recent_requests[0]
  {
  }

  /** Counts of the buckets for one day or month: the three APIs, each with its bucket or zeros. */
  datatype ApiBucket = ApiBucket(api: string, bucket: Bucket)

  /** Fresh statistics for the three tracked APIs. */
  const FRESH_STATS: map<string, ApiStats> :=
    map["tavily" := EMPTY_STATS, "deepseek" := EMPTY_STATS, "openai" := EMPTY_STATS]

  /** The empty statistics are consistent. */
  lemma {:induction false} EmptyConsistent()
    ensures Consistent(EMPTY_STATS)
  {
  }

  /** The persisted statistics file: one entry per API, and the last reset time. */
  datatype StoredStats = StoredStats(apis: map<string, ApiStats>, last_reset: string)

  /** One API's statistics after a write and a read of the file: +∞ comes back as `null`. */
  function Reload(s: ApiStats): (r: ApiStats)
    ensures r.min_response_time_ms == if s.min_response_time_ms.PlusInfinity? then Null else s.min_response_time_ms
    ensures r.(min_response_time_ms := s.min_response_time_ms) == s
  {
    s.(min_response_time_ms := if s.min_response_time_ms.PlusInfinity? then Null else s.min_response_time_ms)
  }

  /**
   * After a restart, an API that had no timed request reports a minimum
   * response time of 0 after its first one, where an uninterrupted monitor
   * reports that request's time.
   */
  lemma {:induction false} ReloadedMinimumIsZero(s: ApiStats, operation: string, data: RequestData, timestamp: string)
    requires s.min_response_time_ms.PlusInfinity?
    requires data.response_time_ms.Some? && data.response_time_ms.value > 0.0
    ensures Logged(s, operation, data, timestamp).min_response_time_ms == Finite(data.response_time_ms.value)
    ensures Logged(Reload(s), operation, data, timestamp).min_response_time_ms == Finite(0.0)
  {
  }

  class APIMonitor {
    var stats: map<string, ApiStats>
    var last_reset: string

    /** Every tracked API has statistics. */
    predicate Valid()
      reads this
    {
      "tavily" in stats && "deepseek" in stats && "openai" in stats
    }

    /**
     * `new APIMonitor()`: the statistics read from the file, or fresh ones
     * when there is no file or it does not parse.
     */
    constructor(file: Option<StoredStats>, now: string)
      ensures file.None? ==> stats == FRESH_STATS && last_reset == now
      ensures file.Some? ==>
        && stats.Keys == file.value.apis.Keys
        && (forall a :: a in stats ==> stats[a] == Reload(file.value.apis[a]))
        && last_reset == file.value.last_reset
      ensures file.None? || (forall a :: a in APIS ==> a in file.value.apis) ==> Valid()
    {
      if file.None? {
        stats := FRESH_STATS;
        last_reset := now;
      } else {
        var apis := file.value.apis;
        stats := map a | a in apis :: Reload(apis[a]);
        last_reset := file.value.last_reset;
        assert APIS[0] == "tavily" && APIS[1] == "deepseek" && APIS[2] == "openai";
      }
    }

    /** `logRequest(apiName, operation, data)`: an API without statistics changes nothing. */
    method LogRequest(apiName: string, operation: string, data: RequestData, timestamp: string)
      modifies this
      ensures last_reset == old(last_reset)
      ensures stats.Keys == old(stats).Keys
      ensures apiName !in old(stats) ==> stats == old(stats)
      ensures apiName in old(stats) ==> stats == old(stats)[apiName := Logged(old(stats)[apiName], operation, data, timestamp)]
    {
      if apiName !in stats {
        return;
      }
      var before := stats[apiName];
      ghost var target := Logged(before, operation, data, timestamp);
      var s := before;
      var dateKey := DateKey(timestamp);
      var monthKey := MonthKey(dateKey);
      s := s.(total_requests := s.total_requests + 1);
      if Succeeded(data) {
        s := s.(successful_requests := s.successful_requests + 1);
      } else {
        s := s.(failed_requests := s.failed_requests + 1);
      }
      assert s.successful_requests == target.successful_requests && s.failed_requests == target.failed_requests;
      if data.tokens.Some? {
        var input, output := InputTokens(data), OutputTokens(data);
        s := s.(input_tokens := s.input_tokens + input, output_tokens := s.output_tokens + output,
                total_tokens := s.total_tokens + (input + output));
      }
      assert s.input_tokens == target.input_tokens && s.output_tokens == target.output_tokens;
      assert s.total_tokens == target.total_tokens;
      if data.response_time_ms.Some? {
        var ms := data.response_time_ms.value;
        s := s.(total_response_time_ms := s.total_response_time_ms + ms);
        s := s.(avg_response_time_ms := s.total_response_time_ms / s.total_requests as real);
        s := s.(min_response_time_ms := MinBound(s.min_response_time_ms, ms));
        s := s.(max_response_time_ms := Max(s.max_response_time_ms, ms));
      }
      assert s.total_response_time_ms == target.total_response_time_ms && s.avg_response_time_ms == target.avg_response_time_ms;
      assert s.min_response_time_ms == target.min_response_time_ms && s.max_response_time_ms == target.max_response_time_ms;
      s := s.(daily := Bump(s.daily, dateKey, TokenCount(data)));
      s := s.(monthly := Bump(s.monthly, monthKey, TokenCount(data)));
      var recent := [RecentEntry(operation, data, timestamp)] + s.recent_requests;
      if |recent| > RECENT_LIMIT {
        recent := recent[..RECENT_LIMIT];
      }
      s := s.(recent_requests := recent);
      assert s == target;
      stats := stats[apiName := s];
    }

    /** `getStats(apiName)` with a name: that API's statistics, if it has any. */
    function GetStats(apiName: string): (r: Option<ApiStats>)
      reads this
      ensures r.Some? <==> apiName in stats
      ensures r.Some? ==> r.value == stats[apiName]
    {
      if apiName in stats then Some(stats[apiName]) else None
    }

    /**
     * `resetStats(apiName)`: a non-empty name starts only that API over,
     * creating its entry if it had none; no name (or the empty one) starts
     * all three over and records the reset time.
     */
    method ResetStats(apiName: Option<string>, now: string)
      modifies this
      ensures old(Valid()) ==> Valid()
      ensures apiName.Some? && apiName.value != "" ==>
        stats == old(stats)[apiName.value := EMPTY_STATS] && last_reset == old(last_reset)
      ensures apiName.None? || apiName.value == "" ==> stats == FRESH_STATS && last_reset == now
    {
      if apiName.Some? && apiName.value != "" {
        stats := stats[apiName.value := EMPTY_STATS];
      } else {
        stats := FRESH_STATS;
        last_reset := now;
      }
    }

    /** The bucket `key` of each API, or zeros. */
    function BucketsAt(key: string, monthly: bool): (r: seq<ApiBucket>)
      requires Valid()
      reads this
      ensures |r| == 3
      ensures forall k :: 0 <= k < 3 ==> r[k].api == APIS[k]
      ensures forall k :: 0 <= k < 3 ==>
        var m := if monthly then stats[APIS[k]].monthly else stats[APIS[k]].daily;
        r[k].bucket == if key in m then m[key] else EMPTY_BUCKET
    {
      seq(3, k requires 0 <= k < 3 reads this requires Valid() =>
        var m := if monthly then stats[APIS[k]].monthly else stats[APIS[k]].daily;
        ApiBucket(APIS[k], if key in m then m[key] else EMPTY_BUCKET))
    }

    /** `getTodayStats()` */
    function GetTodayStats(timestamp: string): (r: seq<ApiBucket>)
      requires Valid()
      reads this
      ensures r == BucketsAt(DateKey(timestamp), false)
    {
      BucketsAt(DateKey(timestamp), false)
    }

    /** `getMonthStats()`: the month is the first seven characters of the timestamp. */
    function GetMonthStats(timestamp: string): (r: seq<ApiBucket>)
      requires Valid()
      reads this
      ensures r == BucketsAt(MonthKey(timestamp), true)
    {
      BucketsAt(MonthKey(timestamp), true)
    }
  }

  /** A request logged today shows up in today's count for its API. */
  lemma {:induction false} LoggedCountsToday(s: ApiStats, operation: string, data: RequestData, timestamp: string)
    ensures var d := Logged(s, operation, data, timestamp).daily;
      DateKey(timestamp) in d
      && d[DateKey(timestamp)].requests == (if DateKey(timestamp) in s.daily then s.daily[DateKey(timestamp)].requests else 0) + 1
  {
  }
}
