// The cost arithmetic and the usage collection of the OpenAI usage report
// (openai-usage/src/api_usage.py): calculate_costs, and the parts of
// fetch_usage_details that do not talk to the network: the date-order check
// and the filtering of results by known API key.
//
// Token prices are in cents per thousand tokens, minute prices in dollars per
// minute; every cost is in cents. Numbers are exact reals.

module UsageCosts {
  import opened Wrappers
  import opened Text

  /** Prices of one model, by usage kind ("input", "cached_input", "output", "minute", ...). */
  type ModelPricing = map<string, real>

  /** The `PRICING` table. */
  const Pricing: map<string, ModelPricing> :=
    map[
      "gpt-4.1" := map["input" := 0.2, "cached_input" := 0.05, "output" := 0.8],
      "gpt-4.1-2025-04-14" := map["input" := 0.2, "cached_input" := 0.05, "output" := 0.8],
      "gpt-4.1-mini" := map["input" := 0.04, "cached_input" := 0.01, "output" := 0.16],
      "gpt-4.1-mini-2025-04-14" := map["input" := 0.04, "cached_input" := 0.01, "output" := 0.16],
      "gpt-4.1-nano" := map["input" := 0.01, "cached_input" := 0.0025, "output" := 0.04],
      "gpt-4.1-nano-2025-04-14" := map["input" := 0.01, "cached_input" := 0.0025, "output" := 0.04],
      "gpt-4.5-preview" := map["input" := 7.5, "cached_input" := 3.75, "output" := 15.0],
      "gpt-4.5-preview-2025-02-27" := map["input" := 7.5, "cached_input" := 3.75, "output" := 15.0],
      "gpt-4o" := map["input" := 0.25, "cached_input" := 0.125, "output" := 1.0],
      "gpt-4o-2024-08-06" := map["input" := 0.25, "cached_input" := 0.125, "output" := 1.0],
      "gpt-4o-2024-11-20" := map["input" := 0.25, "cached_input" := 0.125, "output" := 1.0],
      "gpt-4o-2024-05-13" := map["input" := 0.5, "cached_input" := 0.5, "output" := 1.5],
      "gpt-4o-realtime-preview-2024-12-17" := map["input" := 0.5, "cached_input" := 0.25, "output" := 2.0],
      "gpt-4o-mini-2024-07-18" := map["input" := 0.015, "cached_input" := 0.0075, "output" := 0.06],
      "gpt-4o-mini" := map["input" := 0.015, "cached_input" := 0.0075, "output" := 0.06],
      "gpt-4o-mini-realtime-preview-2024-12-17" := map["input" := 0.06, "cached_input" := 0.03, "output" := 0.24],
      "gpt-4o-search-preview-2025-03-11" := map["input" := 0.25, "output" := 1.0],
      "gpt-4o-mini-search-preview-2025-03-11" := map["input" := 0.015, "output" := 0.06],
      "o1-2024-12-17" := map["input" := 1.5, "cached_input" := 0.75, "output" := 6.0],
      "o1-pro-2025-03-19" := map["input" := 15.0, "output" := 60.0],
      "o3-2025-04-16" := map["input" := 1.0, "cached_input" := 0.25, "output" := 4.0],
      "o3" := map["input" := 0.5, "cached_input" := 0.125, "output" := 2.0],
      "o3-mini-2025-01-31" := map["input" := 0.11, "cached_input" := 0.055, "output" := 0.44],
      "o1-mini-2024-09-12" := map["input" := 0.11, "cached_input" := 0.055, "output" := 0.44],
      "o4-mini-2025-04-16" := map["input" := 0.25, "cached_input" := 0.0275, "output" := 0.44],
      "gpt-4-turbo-2024-04-09" := map["input" := 1.0, "output" := 3.0],
      "gpt-4-0613" := map["input" := 3.0, "output" := 6.0],
      "gpt-4-32k" := map["input" := 6.0, "output" := 12.0],
      "gpt-3.5-turbo-0125" := map["input" := 0.05, "output" := 0.15],
      "gpt-3.5-turbo-instruct" := map["input" := 0.15, "output" := 0.2],
      "gpt-3.5-turbo-16k-0613" := map["input" := 0.3, "output" := 0.4],
      "codex-mini-latest" := map["input" := 0.15, "cached_input" := 0.0375, "output" := 0.6],
      "computer-use-preview-2025-03-11" := map["input" := 0.3, "output" := 1.2],
      "text-embedding-3-small" := map["input" := 0.002],
      "text-embedding-3-large" := map["input" := 0.013],
      "text-embedding-ada-002" := map["input" := 0.01],
      "whisper-1" := map["minute" := 0.006],
      "gpt-4o-transcribe" := map["input" := 0.25, "output" := 1.0, "minute" := 0.006],
      "gpt-4o-mini-transcribe" := map["input" := 0.125, "output" := 0.5, "minute" := 0.003],
      "gpt-4o-mini-tts" := map["output" := 1.2, "minute" := 0.015],
      "gpt-image-1" := map["input" := 1.0, "output" := 4.0],
      "dall-e-3" := map["standard" := 4.0, "hd" := 8.0],
      "dall-e-2" := map["standard" := 1.6, "512" := 1.8, "256" := 1.6],
      "omni-moderation-latest" := map["input" := 0.0],
      "text-moderation-latest" := map["input" := 0.0]
    ]

  /** What `calculate_costs` returns, with the warning it prints to standard error. */
  datatype Costed = Costed(costs: map<string, real>, warning: Option<string>)

  /** One cost entry: present when the usage has `field` and the pricing has `price`. */
  function Entry(costs: map<string, real>, usage: map<string, real>, prices: ModelPricing,
                 field: string, price: string, cost: string, scale: real): map<string, real>
  {
    if field in usage && price in prices then costs[cost := usage[field] * scale * prices[price]] else costs
  }

  /** The warning for a model without prices; none for "" or any casing of "unknown". */
  function MissingPriceWarning(model: string): Option<string>
  {
    if model != "" && LowerStr(model) != "unknown" then
      Some("Warning: Pricing for model '" + model + "' not found. Costs will be $0.")
    else None
  }

  /** `calculate_costs` against the price table `pricing`. */
  function CostsWith(pricing: map<string, ModelPricing>, usage: map<string, real>, model: string): Costed
  {
    if model !in pricing || pricing[model] == map[] then Costed(map[], MissingPriceWarning(model))
    else
      var prices := pricing[model];
      var c1 := Entry(map[], usage, prices, "input_tokens", "input", "input_cost", 1.0 / 1000.0);
      var c2 := Entry(c1, usage, prices, "output_tokens", "output", "output_cost", 1.0 / 1000.0);
      var c3 := Entry(c2, usage, prices, "cached_input_tokens", "cached_input", "cached_input_cost", 1.0 / 1000.0);
      var c4 := Entry(c3, usage, prices, "minute", "minute", "minute_cost", 100.0);
      Costed(c4, None)
  }

  /** The costs of one usage record at the built-in price table, with a warning for an unpriced model. */
  function CalculateCosts(usage: map<string, real>, model: string): Costed
  {
    CostsWith(Pricing, usage, model)
  }

  /** A model without prices costs nothing, and only "" and "unknown" go without a warning. */
  lemma UnpricedModel(pricing: map<string, ModelPricing>, usage: map<string, real>, model: string)
    requires model !in pricing || pricing[model] == map[]
    ensures CostsWith(pricing, usage, model).costs == map[]
    ensures CostsWith(pricing, usage, model).warning.None? <==> model == "" || LowerStr(model) == "unknown"
  {
  }

  /**
   * For a priced model, each cost is present exactly when both the usage
   * count and the price are, and is count/1000 times the price for tokens
   * and minutes times the dollar price times 100 for audio.
   */
  lemma CostEntries(pricing: map<string, ModelPricing>, usage: map<string, real>, model: string)
    requires model in pricing && pricing[model] != map[]
    ensures var c := CostsWith(pricing, usage, model).costs;
      var p := pricing[model];
      && c.Keys <= {"input_cost", "output_cost", "cached_input_cost", "minute_cost"}
      && ("input_cost" in c <==> "input_tokens" in usage && "input" in p)
      && ("output_cost" in c <==> "output_tokens" in usage && "output" in p)
      && ("cached_input_cost" in c <==> "cached_input_tokens" in usage && "cached_input" in p)
      && ("minute_cost" in c <==> "minute" in usage && "minute" in p)
      && ("input_cost" in c ==> c["input_cost"] * 1000.0 == usage["input_tokens"] * p["input"])
      && ("output_cost" in c ==> c["output_cost"] * 1000.0 == usage["output_tokens"] * p["output"])
      && ("cached_input_cost" in c ==> c["cached_input_cost"] * 1000.0 == usage["cached_input_tokens"] * p["cached_input"])
      && ("minute_cost" in c ==> c["minute_cost"] == usage["minute"] * p["minute"] * 100.0)
    ensures CostsWith(pricing, usage, model).warning.None?
  {
  }

  /* ---------------- fetch_usage_details ---------------- */

  /**
   * A usage result as the report handles it: the API's fields, the fields
   * `fetch_usage_details` adds (`api_key_name`, `costs`) and the ones `main`
   * adds (`date`, `project_id`). `None` is a missing key.
   */
  datatype Usage = Usage(apiKeyId: Option<string>, apiKeyName: Option<string>, model: Option<string>,
                         counts: map<string, real>, costs: Option<map<string, real>>,
                         date: Option<string>, projectId: Option<string>)

  /** One day bucket of the usage API, its start already formatted as YYYY-MM-DD. */
  datatype Bucket = Bucket(day: string, results: seq<Usage>)

  const Microsecond := 1000000
  const DaySeconds := 86400

  /**
   * The requested window in whole seconds. Days are day numbers since the
   * epoch: the start is the day's first instant, the end its last microsecond
   * (23:59:59.999999). Without a day the current month's bounds are used,
   * given in microseconds since the epoch.
   */
  function UsageWindow(startDay: Option<nat>, endDay: Option<nat>, monthStart: nat, monthEnd: nat)
    : (r: Result<(int, int), string>)
  {
    var start := if startDay.Some? then startDay.value * DaySeconds * Microsecond else monthStart;
    var end := if endDay.Some? then (endDay.value * DaySeconds + DaySeconds) * Microsecond - 1 else monthEnd;
    if start > end then Err("Start date cannot be after end date.")
    else Ok((start / Microsecond, end / Microsecond))
  }

  /** With both days given, the window is refused exactly when the start day is after the end day, and covers whole days. */
  lemma WindowOrder(startDay: nat, endDay: nat, monthStart: nat, monthEnd: nat)
    ensures var r := UsageWindow(Some(startDay), Some(endDay), monthStart, monthEnd);
      && (r.Err? <==> startDay > endDay)
      && (r.Ok? ==> r.value == (startDay * DaySeconds, endDay * DaySeconds + DaySeconds - 1))
  {
    var end := (endDay * DaySeconds + DaySeconds) * Microsecond - 1;
    if startDay > endDay {
      assert startDay * DaySeconds >= endDay * DaySeconds + DaySeconds;
    } else {
      assert (endDay * DaySeconds + DaySeconds - 1) * Microsecond <= end < (endDay * DaySeconds + DaySeconds) * Microsecond;
    }
  }

  /** Whether a result's key is one of the project's keys. */
  predicate KnownKey(r: Usage, keys: map<string, string>)
  {
    r.apiKeyId.Some? && r.apiKeyId.value in keys
  }

  /**
   * A kept result with its key name and costs (`result.get('model', "unknown")`
   * prices it). `pricing` is the price table, `Pricing` in the report.
   */
  function Annotated(r: Usage, keys: map<string, string>, pricing: map<string, ModelPricing>): Usage
    requires KnownKey(r, keys)
  {
    var model := if r.model.Some? then r.model.value else "unknown";
    r.(apiKeyName := Some(keys[r.apiKeyId.value]), costs := Some(CostsWith(pricing, r.counts, model).costs))
  }

  /** The results of a bucket whose key is known, annotated, in order. */
  function Kept(rs: seq<Usage>, keys: map<string, string>, pricing: map<string, ModelPricing>): (r: seq<Usage>)
    ensures |r| <= |rs|
  {
    if rs == [] then []
    else
      var last := rs[|rs| - 1];
      Kept(rs[..|rs| - 1], keys, pricing) + (if KnownKey(last, keys) then [Annotated(last, keys, pricing)] else [])
  }

  /** The date → results dictionary after the buckets `bs`, starting from `acc`. */
  function Collect(acc: map<string, seq<Usage>>, bs: seq<Bucket>, keys: map<string, string>, pricing: map<string, ModelPricing>)
    : map<string, seq<Usage>>
    decreases |bs|
  {
    if bs == [] then acc
    else
      var b := bs[0];
      var before := if b.day in acc then acc[b.day] else [];
      Collect(acc[b.day := before + Kept(b.results, keys, pricing)], bs[1..], keys, pricing)
  }

  /** A result is kept exactly when its key is known, and then with the key's name and its costs. */
  lemma {:induction false} KeptExactly(rs: seq<Usage>, keys: map<string, string>, pricing: map<string, ModelPricing>,
                                       u: Usage)
    ensures u in Kept(rs, keys, pricing) <==> exists r :: r in rs && KnownKey(r, keys) && u == Annotated(r, keys, pricing)
  {
    if rs != [] {
      var init := rs[..|rs| - 1];
      var last := rs[|rs| - 1];
      KeptExactly(init, keys, pricing, u);
      assert rs == init + [last];
      if u in Kept(rs, keys, pricing) && u !in Kept(init, keys, pricing) {
        assert KnownKey(last, keys) && u == Annotated(last, keys, pricing);
      }
      if exists r :: r in rs && KnownKey(r, keys) && u == Annotated(r, keys, pricing) {
        var r :| r in rs && KnownKey(r, keys) && u == Annotated(r, keys, pricing);
        if r != last {
          assert r in init;
        }
      }
    }
  }

  /** Every kept result has a known key and that key's name. */
  lemma {:induction false} KeptKnown(rs: seq<Usage>, keys: map<string, string>, pricing: map<string, ModelPricing>)
    ensures forall u :: u in Kept(rs, keys, pricing) ==>
      u.apiKeyId.Some? && u.apiKeyId.value in keys && u.apiKeyName == Some(keys[u.apiKeyId.value])
  {
    forall u | u in Kept(rs, keys, pricing)
      ensures u.apiKeyId.Some? && u.apiKeyId.value in keys && u.apiKeyName == Some(keys[u.apiKeyId.value])
    {
      KeptExactly(rs, keys, pricing, u);
    }
  }

  /** Every bucket's day is in the dictionary, even when none of its results is kept, and nothing else is added. */
  lemma {:induction false} CollectDays(acc: map<string, seq<Usage>>, bs: seq<Bucket>, keys: map<string, string>, pricing: map<string, ModelPricing>)
    ensures Collect(acc, bs, keys, pricing).Keys == acc.Keys + set b | b in bs :: b.day
    decreases |bs|
  {
    if bs != [] {
      var b := bs[0];
      var before := if b.day in acc then acc[b.day] else [];
      CollectDays(acc[b.day := before + Kept(b.results, keys, pricing)], bs[1..], keys, pricing);
      assert forall x :: x in bs <==> x == b || x in bs[1..];
    }
  }

  /** A day's list is what it held, followed by the kept results of each of its buckets in order. */
  lemma {:induction false} CollectAppends(acc: map<string, seq<Usage>>, bs: seq<Bucket>, keys: map<string, string>,
                                          pricing: map<string, ModelPricing>, b: Bucket)
    ensures Collect(acc, bs + [b], keys, pricing)
      == var m := Collect(acc, bs, keys, pricing);
         m[b.day := (if b.day in m then m[b.day] else []) + Kept(b.results, keys, pricing)]
    decreases |bs|
  {
    if bs != [] {
      var c := bs[0];
      var before := if c.day in acc then acc[c.day] else [];
      assert (bs + [b])[1..] == bs[1..] + [b];
      CollectAppends(acc[c.day := before + Kept(c.results, keys, pricing)], bs[1..], keys, pricing, b);
    }
  }

  /** The inner loop over one bucket's results. */
  method KeepResults(rs: seq<Usage>, keys: map<string, string>, pricing: map<string, ModelPricing>) returns (kept: seq<Usage>)
    ensures kept == Kept(rs, keys, pricing)
  {
    kept := [];
    var j := 0;
    while j < |rs|
      invariant 0 <= j <= |rs|
      invariant kept == Kept(rs[..j], keys, pricing)
    {
      var result := rs[j];
      assert rs[..j + 1][..j] == rs[..j];
      if KnownKey(result, keys) {
        kept := kept + [Annotated(result, keys, pricing)];
      }
      j := j + 1;
    }
    assert rs[..j] == rs;
  }

  /** The bucket loop: file every kept result under its bucket's day. */
  method CollectBuckets(pages: seq<Bucket>, keys: map<string, string>, pricing: map<string, ModelPricing>)
    returns (usagesByDate: map<string, seq<Usage>>)
    ensures usagesByDate == Collect(map[], pages, keys, pricing)
  {
    usagesByDate := map[];
    var i := 0;
    while i < |pages|
      invariant 0 <= i <= |pages|
      invariant usagesByDate == Collect(map[], pages[..i], keys, pricing)
    {
      var bucket := pages[i];
      if bucket.day !in usagesByDate {
        usagesByDate := usagesByDate[bucket.day := []];
      }
      var kept := KeepResults(bucket.results, keys, pricing);
      usagesByDate := usagesByDate[bucket.day := usagesByDate[bucket.day] + kept];
      CollectAppends(map[], pages[..i], keys, pricing, bucket);
      assert pages[..i + 1] == pages[..i] + [bucket];
      i := i + 1;
    }
    assert pages[..i] == pages;
  }

  /**
   * The part of `fetch_usage_details` that does not talk to the network:
   * check the window, then collect the buckets of all pages, in order.
   */
  method FetchUsageDetails(startDay: Option<nat>, endDay: Option<nat>, monthStart: nat, monthEnd: nat,
                           pages: seq<Bucket>, keys: map<string, string>, pricing: map<string, ModelPricing>)
    returns (r: Result<map<string, seq<Usage>>, string>)
    ensures UsageWindow(startDay, endDay, monthStart, monthEnd).Err? ==>
      r == Err(UsageWindow(startDay, endDay, monthStart, monthEnd).error)
    ensures UsageWindow(startDay, endDay, monthStart, monthEnd).Ok? ==> r == Ok(Collect(map[], pages, keys, pricing))
  {
    var window := UsageWindow(startDay, endDay, monthStart, monthEnd);
    if window.Err? {
      return Err(window.error);
    }
    var usagesByDate := CollectBuckets(pages, keys, pricing);
    return Ok(usagesByDate);
  }
}
