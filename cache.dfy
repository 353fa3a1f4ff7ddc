/**
  A read-through price cache in front of a slow, fallible price service.

  The cache keeps a table from item code to the last price the service
  reported, a construction-time timestamp `time` and a window `maxAge`.
  Freshness is judged against the single expiry point `time + maxAge` for
  the whole table; nothing ever moves that point.

  The clock and the service are outside the model: every lookup is given the
  clock reading `now` it would take and the answer the service would give if
  it were asked. Durations and timestamps are unbounded integers.
 */
module PriceCache {
  import opened Wrappers

  /** A price (a float64 in the program); it is only stored and returned. */
  type Price = real

  /** The zero value the program returns beside an error. */
  const ZeroPrice: Price := 0.0

  /** The message text of the service's error; the error value itself is not kept. */
  type Cause = string

  /** What the price service answers when it is asked for one item code. */
  datatype Fetch = Fetched(price: Price) | FetchFailed(cause: Cause)

  /** One request that reached the service, with the answer it got. */
  datatype ServiceCall = ServiceCall(itemCode: string, answer: Fetch)

  /** The error a lookup reports: the service failed; its message embeds the
      text of the service's error. */
  datatype CacheError = UpstreamFetchFailed(cause: Cause)

  /** What a single lookup returns: a price and an optional error. */
  datatype Lookup = Lookup(price: Price, err: Option<CacheError>)

  /** One lookup seen as a transition of the table. `call` is the request sent
      to the service, if one was sent. */
  datatype Step = Step(prices: map<string, Price>, result: Lookup, call: Option<ServiceCall>)

  /** The environment one lookup of a batch sees: its clock reading and the
      answer the service would give it. */
  datatype LookupEnv = LookupEnv(now: int, answer: Fetch)

  /** A batch of lookups run one after the other: the final table, the result
      at each input position and the service history (newest request first)
      with the batch's requests in front. */
  datatype BatchRun = BatchRun(prices: map<string, Price>, lookups: seq<Lookup>, log: seq<ServiceCall>)

  /** The shared expiry point has passed at `now`: `time + maxAge` is strictly
      before `now`, so `now == time + maxAge` still counts as fresh. */
  predicate Expired(time: int, maxAge: int, now: int)
  {
    time + maxAge < now
  }

  /** The requests a step sent to the service, as a (possibly empty) sequence. */
  function Requests(call: Option<ServiceCall>): seq<ServiceCall>
  {
    match call
    case None => []
    case Some(c) => [c]
  }

  /** One call of GetPriceFor on table `prices`: serve a present, unexpired
      entry from the table; otherwise ask the service, store its price on
      success, and report its failure without touching the table. */
  function CacheStep(prices: map<string, Price>, time: int, maxAge: int,
                     itemCode: string, now: int, answer: Fetch): (s: Step)
    // the service is asked exactly when the key is missing or the window has passed
    ensures s.call.Some? <==> itemCode !in prices || Expired(time, maxAge, now)
    ensures s.call.Some? ==> s.call.value == ServiceCall(itemCode, answer)
    // an error is reported exactly when the service was asked and failed
    ensures s.result.err.Some? <==> s.call.Some? && answer.FetchFailed?
  {
    var getService := itemCode !in prices || Expired(time, maxAge, now);
    if !getService then
      Step(prices, Lookup(prices[itemCode], None), None)
    else
      match answer
      case FetchFailed(cause) =>
        Step(prices, Lookup(ZeroPrice, Some(UpstreamFetchFailed(cause))), Some(ServiceCall(itemCode, answer)))
      case Fetched(p) =>
        Step(prices[itemCode := p], Lookup(p, None), Some(ServiceCall(itemCode, answer)))
  }

  /** The table an observer would rebuild from a service history given newest
      request first: each key the service ever answered successfully, mapped to
      the price of its most recent successful answer. */
  function LastFetched(log: seq<ServiceCall>): map<string, Price>
    decreases |log|
  {
    if log == [] then map[]
    else
      var older := LastFetched(log[1..]);
      match log[0].answer
      case Fetched(p) => older[log[0].itemCode := p]
      case FetchFailed(_) => older
  }

  /** A lookup keeps the table equal to the one rebuilt from the service history. */
  lemma {:induction false} StepKeepsHistory(log: seq<ServiceCall>, time: int, maxAge: int,
                                            itemCode: string, now: int, answer: Fetch)
    ensures var s := CacheStep(LastFetched(log), time, maxAge, itemCode, now, answer);
            s.prices == LastFetched(Requests(s.call) + log)
  {
    var s := CacheStep(LastFetched(log), time, maxAge, itemCode, now, answer);
    if s.call.Some? {
      assert ([s.call.value] + log)[1..] == log;
    } else {
      assert Requests(s.call) + log == log;
    }
  }

  /** GetPricesFor run sequentially in index order: lookup `i` sees the table
      left by lookups `0 .. i-1`; `log` is the service history before the batch. */
  function RunBatch(prices: map<string, Price>, log: seq<ServiceCall>, time: int, maxAge: int,
                    itemCodes: seq<string>, env: seq<LookupEnv>): (b: BatchRun)
    requires |env| == |itemCodes|
    ensures |b.lookups| == |itemCodes|
    ensures prices.Keys <= b.prices.Keys
    decreases |itemCodes|
  {
    if itemCodes == [] then BatchRun(prices, [], log)
    else
      var n := |itemCodes| - 1;
      var before := RunBatch(prices, log, time, maxAge, itemCodes[..n], env[..n]);
      var s := CacheStep(before.prices, time, maxAge, itemCodes[n], env[n].now, env[n].answer);
      BatchRun(s.prices, before.lookups + [s.result], Requests(s.call) + before.log)
  }

  /** Extending a batch's input by one position runs one more lookup on the
      table the shorter batch left. */
  lemma RunBatchStep(prices: map<string, Price>, log: seq<ServiceCall>, time: int, maxAge: int,
                     itemCodes: seq<string>, env: seq<LookupEnv>, i: nat)
    requires |env| == |itemCodes| && i < |itemCodes|
    ensures var before := RunBatch(prices, log, time, maxAge, itemCodes[..i], env[..i]);
            var s := CacheStep(before.prices, time, maxAge, itemCodes[i], env[i].now, env[i].answer);
            RunBatch(prices, log, time, maxAge, itemCodes[..i + 1], env[..i + 1])
            == BatchRun(s.prices, before.lookups + [s.result], Requests(s.call) + before.log)
  {
    assert itemCodes[..i + 1][..i] == itemCodes[..i];
    assert env[..i + 1][..i] == env[..i];
  }

  /** Running a batch on the table rebuilt from a history yields the table
      rebuilt from that history with the batch's requests in front. */
  lemma {:induction false} BatchKeepsHistory(log: seq<ServiceCall>, time: int, maxAge: int,
                                             itemCodes: seq<string>, env: seq<LookupEnv>)
    requires |env| == |itemCodes|
    ensures var b := RunBatch(LastFetched(log), log, time, maxAge, itemCodes, env);
            b.prices == LastFetched(b.log)
    decreases |itemCodes|
  {
    if itemCodes != [] {
      var n := |itemCodes| - 1;
      BatchKeepsHistory(log, time, maxAge, itemCodes[..n], env[..n]);
      var before := RunBatch(LastFetched(log), log, time, maxAge, itemCodes[..n], env[..n]);
      StepKeepsHistory(before.log, time, maxAge, itemCodes[n], env[n].now, env[n].answer);
    }
  }

  /** The documented batch contract: if any lookup failed, the batch reports an error. */
  predicate ReportsEveryFailure(lookups: seq<Lookup>, err: Option<CacheError>)
  {
    (exists i :: 0 <= i < |lookups| && lookups[i].err.Some?) ==> err.Some?
  }

  /** The first error among the lookups, if there is one. */
  function FirstFailure(lookups: seq<Lookup>): Option<CacheError>
    decreases |lookups|
  {
    if lookups == [] then None
    else if lookups[0].err.Some? then lookups[0].err
    else FirstFailure(lookups[1..])
  }

  /** FirstFailure reports an error exactly when some lookup failed, and then
      the error of the earliest failed position. */
  lemma {:induction false} FirstFailureSpec(lookups: seq<Lookup>)
    ensures FirstFailure(lookups).Some? <==> exists i :: 0 <= i < |lookups| && lookups[i].err.Some?
    ensures FirstFailure(lookups).Some? ==>
              exists i :: 0 <= i < |lookups| && lookups[i].err == FirstFailure(lookups) &&
                          forall j :: 0 <= j < i ==> lookups[j].err.None?
    decreases |lookups|
  {
    if lookups != [] && lookups[0].err.None? {
      var rest := lookups[1..];
      FirstFailureSpec(rest);
      assert forall j :: 0 <= j < |rest| ==> rest[j] == lookups[j + 1];
      if FirstFailure(rest).Some? {
        var i :| 0 <= i < |rest| && rest[i].err == FirstFailure(rest) &&
                 forall j :: 0 <= j < i ==> rest[j].err.None?;
        assert lookups[i + 1].err == FirstFailure(lookups);
        assert forall j :: 0 <= j < i + 1 ==> lookups[j].err.None? by {
          forall j | 0 <= j < i + 1 ensures lookups[j].err.None? {
            if j > 0 { assert lookups[j] == rest[j - 1]; }
          }
        }
      } else {
        forall j | 0 <= j < |lookups| ensures lookups[j].err.None? {
          if j > 0 { assert lookups[j] == rest[j - 1]; }
        }
      }
    }
  }

  class TransparentCache {
    /** The freshness window, fixed at construction. */
    const maxAge: int
    /** The construction-time timestamp every freshness check is measured from. */
    const time: int
    /** The cached prices. */
    var prices: map<string, Price>
    /** Every request the cache has sent to the price service, newest first. */
    ghost var serviceLog: seq<ServiceCall>

    /** The table holds exactly the most recent successfully fetched price of
        every key the service has ever answered successfully. */
    ghost predicate Valid()
      reads this
    {
      prices == LastFetched(serviceLog)
    }

    /** NewTransparentCache: an empty table, stamped with the clock reading `now`. */
    constructor (maxAge: int, now: int)
      ensures Valid()
      ensures this.maxAge == maxAge && time == now
      ensures prices == map[] && serviceLog == []
    {
      this.maxAge := maxAge;
      time := now;
      prices := map[];
      serviceLog := [];
    }

    /** The price of `itemCode`, from the table if present and fresh at `now`,
        else from the service, whose answer would be `answer`. */
    method GetPriceFor(itemCode: string, now: int, answer: Fetch) returns (price: Price, err: Option<CacheError>)
      requires Valid()
      modifies this
      ensures Valid()
      ensures var s := CacheStep(old(prices), time, maxAge, itemCode, now, answer);
              prices == s.prices && Lookup(price, err) == s.result &&
              serviceLog == Requests(s.call) + old(serviceLog)
    {
      StepKeepsHistory(serviceLog, time, maxAge, itemCode, now, answer);
      var getService := true;
      if itemCode in prices {
        var maxTimeCache := time + maxAge;
        getService := maxTimeCache < now;
      }
      if getService {
        serviceLog := [ServiceCall(itemCode, answer)] + serviceLog;
        match answer {
          case FetchFailed(cause) =>
            return ZeroPrice, Some(UpstreamFetchFailed(cause));
          case Fetched(p) =>
            prices := prices[itemCode := p];
            return p, None;
        }
      }
      return prices[itemCode], None;
    }

    /** The prices of several item codes, position by position; lookup `i`
        sees the environment `env[i]`. As the program does, per-key errors are
        dropped: a failed position holds ZeroPrice and the error is None. */
    method GetPricesFor(itemCodes: seq<string>, env: seq<LookupEnv>) returns (results: array<Price>, err: Option<CacheError>)
      requires Valid()
      requires |env| == |itemCodes|
      modifies this
      ensures Valid()
      ensures fresh(results) && results.Length == |itemCodes|
      ensures var b := RunBatch(old(prices), old(serviceLog), time, maxAge, itemCodes, env);
              prices == b.prices && serviceLog == b.log &&
              forall i :: 0 <= i < |itemCodes| ==> results[i] == b.lookups[i].price
      ensures err == None
    {
      results := new Price[|itemCodes|];
      ghost var prices0, log0 := prices, serviceLog;
      ghost var run := RunBatch(prices0, log0, time, maxAge, [], []);
      var i := 0;
      while i < |itemCodes|
        invariant 0 <= i <= |itemCodes|
        invariant run == RunBatch(prices0, log0, time, maxAge, itemCodes[..i], env[..i])
        invariant Valid() && prices == run.prices && serviceLog == run.log
        invariant forall j :: 0 <= j < i ==> results[j] == run.lookups[j].price
      {
        RunBatchStep(prices0, log0, time, maxAge, itemCodes, env, i);
        ghost var s := CacheStep(prices, time, maxAge, itemCodes[i], env[i].now, env[i].answer);
        var price, e := GetPriceFor(itemCodes[i], env[i].now, env[i].answer);
        results[i] := price;
        run := BatchRun(s.prices, run.lookups + [s.result], Requests(s.call) + run.log);
        i := i + 1;
      }
      assert itemCodes[..i] == itemCodes && env[..i] == env;
      err := None;
    }

    /** The documented behaviour of GetPricesFor: the same lookups, but every
        position's outcome is kept, and once all are done the first per-key
        error becomes the batch's error. */
    method GetPricesForReportingFailures(itemCodes: seq<string>, env: seq<LookupEnv>)
      returns (results: array<Price>, err: Option<CacheError>)
      requires Valid()
      requires |env| == |itemCodes|
      modifies this
      ensures Valid()
      ensures fresh(results) && results.Length == |itemCodes|
      ensures var b := RunBatch(old(prices), old(serviceLog), time, maxAge, itemCodes, env);
              prices == b.prices && serviceLog == b.log &&
              (forall i :: 0 <= i < |itemCodes| ==> results[i] == b.lookups[i].price) &&
              err == FirstFailure(b.lookups) && ReportsEveryFailure(b.lookups, err)
    {
      results := new Price[|itemCodes|];
      var outcomes: seq<Lookup> := [];
      ghost var prices0, log0 := prices, serviceLog;
      ghost var run := RunBatch(prices0, log0, time, maxAge, [], []);
      var i := 0;
      while i < |itemCodes|
        invariant 0 <= i <= |itemCodes|
        invariant run == RunBatch(prices0, log0, time, maxAge, itemCodes[..i], env[..i])
        invariant Valid() && prices == run.prices && serviceLog == run.log
        invariant outcomes == run.lookups
        invariant forall j :: 0 <= j < i ==> results[j] == outcomes[j].price
      {
        RunBatchStep(prices0, log0, time, maxAge, itemCodes, env, i);
        ghost var s := CacheStep(prices, time, maxAge, itemCodes[i], env[i].now, env[i].answer);
        var price, e := GetPriceFor(itemCodes[i], env[i].now, env[i].answer);
        results[i] := price;
        outcomes := outcomes + [Lookup(price, e)];
        run := BatchRun(s.prices, run.lookups + [s.result], Requests(s.call) + run.log);
        i := i + 1;
      }
      assert itemCodes[..i] == itemCodes && env[..i] == env;
      err := FirstFailure(outcomes);
      FirstFailureSpec(outcomes);
    }
  }
}
