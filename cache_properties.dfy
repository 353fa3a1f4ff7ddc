/**
  Properties of the price cache model: what one lookup does to the table,
  what a batch does position by position, how the table relates to the
  service history, and the batch's error reporting.
 */
module PriceCacheProperties {
  import opened Wrappers
  import opened PriceCache

  // ---------------------------------------------------------------------------
  // One lookup

  /** A present key whose window has not passed (the expiry instant itself
      included) is served from the table: no request, same table, stored price. */
  lemma FreshHit(prices: map<string, Price>, time: int, maxAge: int,
                 itemCode: string, now: int, answer: Fetch)
    requires itemCode in prices && now <= time + maxAge
    ensures var s := CacheStep(prices, time, maxAge, itemCode, now, answer);
            s.call == None && s.prices == prices && s.result == Lookup(prices[itemCode], None)
  {
  }

  /** A successful fetch is stored under its key (insert or overwrite) and
      returned; every other entry keeps its key and its price. */
  lemma SuccessfulFetchIsStored(prices: map<string, Price>, time: int, maxAge: int,
                                itemCode: string, now: int, p: Price)
    requires itemCode !in prices || Expired(time, maxAge, now)
    ensures var s := CacheStep(prices, time, maxAge, itemCode, now, Fetched(p));
            s.result == Lookup(p, None) &&
            itemCode in s.prices && s.prices[itemCode] == p &&
            s.prices.Keys == prices.Keys + {itemCode} &&
            forall k :: k in prices && k != itemCode ==> s.prices[k] == prices[k]
  {
  }

  /** A failed fetch returns ZeroPrice with the wrapped cause, even when an
      older price for the key is on hand, and leaves the table as it was. */
  lemma FailedFetchLeavesTable(prices: map<string, Price>, time: int, maxAge: int,
                               itemCode: string, now: int, cause: Cause)
    requires itemCode !in prices || Expired(time, maxAge, now)
    ensures var s := CacheStep(prices, time, maxAge, itemCode, now, FetchFailed(cause));
            s.result == Lookup(ZeroPrice, Some(UpstreamFetchFailed(cause))) && s.prices == prices
  {
  }

  /** A failure does not poison the key: a later successful fetch stores its
      price as if the failure had not happened. */
  lemma FailureDoesNotPoison(prices: map<string, Price>, time: int, maxAge: int, itemCode: string,
                             now1: int, cause: Cause, now2: int, p: Price)
    requires itemCode !in prices || Expired(time, maxAge, now1)
    requires now1 <= now2
    ensures var s1 := CacheStep(prices, time, maxAge, itemCode, now1, FetchFailed(cause));
            var s2 := CacheStep(s1.prices, time, maxAge, itemCode, now2, Fetched(p));
            s2.call.Some? && s2.result == Lookup(p, None) && s2.prices == prices[itemCode := p]
  {
  }

  /** No lookup removes a key; a key enters the table only as the looked-up
      key of a lookup that asked the service and got a price. */
  lemma TableOnlyGrows(prices: map<string, Price>, time: int, maxAge: int,
                       itemCode: string, now: int, answer: Fetch, k: string)
    ensures var s := CacheStep(prices, time, maxAge, itemCode, now, answer);
            prices.Keys <= s.prices.Keys &&
            (k in s.prices && k !in prices ==> k == itemCode && s.call.Some? && answer.Fetched?)
  {
  }

  /** Whatever a lookup returns without error is what the table holds for the
      key afterwards. */
  lemma ReturnedPriceIsCached(prices: map<string, Price>, time: int, maxAge: int,
                              itemCode: string, now: int, answer: Fetch)
    ensures var s := CacheStep(prices, time, maxAge, itemCode, now, answer);
            s.result.err.None? ==> itemCode in s.prices && s.prices[itemCode] == s.result.price
  {
  }

  /** Within the window a key looked up with a successful answer is served
      from the table: asking again returns what the first lookup returned and
      sends no request. */
  lemma FetchedThenFresh(prices: map<string, Price>, time: int, maxAge: int, itemCode: string,
                         now1: int, p: Price, now2: int, answer2: Fetch)
    requires now2 <= time + maxAge
    ensures var s1 := CacheStep(prices, time, maxAge, itemCode, now1, Fetched(p));
            var s2 := CacheStep(s1.prices, time, maxAge, itemCode, now2, answer2);
            s2.call.None? && s2.result == Lookup(s1.result.price, None)
  {
  }

  /** The expiry point is final: a clock reading later than an expired one is
      expired too, and the instant `time + maxAge` itself is still fresh. */
  lemma ExpiryIsFinal(time: int, maxAge: int, now1: int, now2: int)
    requires Expired(time, maxAge, now1) && now1 <= now2
    ensures Expired(time, maxAge, now2)
    ensures !Expired(time, maxAge, time + maxAge)
  {
  }

  /** Freshness is not per entry: once the shared expiry has passed, a key is
      fetched again even if it was fetched an instant earlier. */
  lemma FetchedThenExpired(prices: map<string, Price>, time: int, maxAge: int, itemCode: string,
                           now1: int, p: Price, now2: int, answer2: Fetch)
    requires Expired(time, maxAge, now1) && now1 <= now2
    ensures var s1 := CacheStep(prices, time, maxAge, itemCode, now1, Fetched(p));
            var s2 := CacheStep(s1.prices, time, maxAge, itemCode, now2, answer2);
            s1.call.Some? && s2.call == Some(ServiceCall(itemCode, answer2))
  {
  }

  // ---------------------------------------------------------------------------
  // The service history

  /** A key is in the table rebuilt from a history exactly when the service
      answered some request for it successfully. */
  lemma {:induction false} LastFetchedKeys(log: seq<ServiceCall>, k: string)
    ensures k in LastFetched(log) <==>
            exists i :: 0 <= i < |log| && log[i].itemCode == k && log[i].answer.Fetched?
    decreases |log|
  {
    if log != [] {
      LastFetchedKeys(log[1..], k);
      assert forall i :: 1 <= i < |log| ==> log[i] == log[1..][i - 1];
      if k in LastFetched(log[1..]) {
        var i :| 0 <= i < |log[1..]| && log[1..][i].itemCode == k && log[1..][i].answer.Fetched?;
        assert log[i + 1] == log[1..][i];
      }
    }
  }

  /** The price the rebuilt table holds for a key is the answer of the most
      recent successful request for it (histories are newest first). */
  lemma {:induction false} LastFetchedIsLatest(log: seq<ServiceCall>, k: string)
    requires k in LastFetched(log)
    ensures exists i :: 0 <= i < |log| && log[i] == ServiceCall(k, Fetched(LastFetched(log)[k])) &&
                        forall j :: 0 <= j < i && log[j].itemCode == k ==> log[j].answer.FetchFailed?
    decreases |log|
  {
    var rest := log[1..];
    if log[0].itemCode == k && log[0].answer.Fetched? {
      assert log[0] == ServiceCall(k, Fetched(LastFetched(log)[k]));
    } else {
      assert LastFetched(log) == LastFetched(rest) || log[0].itemCode != k;
      assert k in LastFetched(rest) && LastFetched(rest)[k] == LastFetched(log)[k];
      LastFetchedIsLatest(rest, k);
      var i :| 0 <= i < |rest| && rest[i] == ServiceCall(k, Fetched(LastFetched(rest)[k])) &&
               forall j :: 0 <= j < i && rest[j].itemCode == k ==> rest[j].answer.FetchFailed?;
      assert log[i + 1] == rest[i];
      forall j | 0 <= j < i + 1 && log[j].itemCode == k
        ensures log[j].answer.FetchFailed?
      {
        if j > 0 { assert log[j] == rest[j - 1]; }
      }
    }
  }

  // ---------------------------------------------------------------------------
  // Batches

  /** Position `i` of a batch holds the result of looking up `itemCodes[i]`,
      against the table the lookups before it left. */
  lemma {:induction false} BatchPosition(prices: map<string, Price>, log: seq<ServiceCall>, time: int, maxAge: int,
                                         itemCodes: seq<string>, env: seq<LookupEnv>, i: nat)
    requires |env| == |itemCodes| && i < |itemCodes|
    ensures var before := RunBatch(prices, log, time, maxAge, itemCodes[..i], env[..i]);
            RunBatch(prices, log, time, maxAge, itemCodes, env).lookups[i]
            == CacheStep(before.prices, time, maxAge, itemCodes[i], env[i].now, env[i].answer).result
    decreases |itemCodes|
  {
    var n := |itemCodes| - 1;
    if i < n {
      BatchPosition(prices, log, time, maxAge, itemCodes[..n], env[..n], i);
      assert itemCodes[..n][..i] == itemCodes[..i];
      assert env[..n][..i] == env[..i];
    } else {
      assert itemCodes[..i] == itemCodes[..n];
    }
  }

  /** A batch whose keys are all present and fresh sends no request, changes
      nothing, and answers every position from the table. */
  lemma {:induction false} BatchAllFresh(prices: map<string, Price>, log: seq<ServiceCall>, time: int, maxAge: int,
                                         itemCodes: seq<string>, env: seq<LookupEnv>)
    requires |env| == |itemCodes|
    requires forall i :: 0 <= i < |itemCodes| ==> itemCodes[i] in prices && env[i].now <= time + maxAge
    ensures var b := RunBatch(prices, log, time, maxAge, itemCodes, env);
            b.prices == prices && b.log == log &&
            forall i :: 0 <= i < |itemCodes| ==> b.lookups[i] == Lookup(prices[itemCodes[i]], None)
    decreases |itemCodes|
  {
    if itemCodes != [] {
      var n := |itemCodes| - 1;
      BatchAllFresh(prices, log, time, maxAge, itemCodes[..n], env[..n]);
    }
  }

  /** Once the shared expiry has passed, every position of a batch asks the
      service, whatever the table holds: the history gains one request per
      position, in index order. */
  lemma {:induction false} BatchAllExpired(prices: map<string, Price>, log: seq<ServiceCall>, time: int, maxAge: int,
                                           itemCodes: seq<string>, env: seq<LookupEnv>)
    requires |env| == |itemCodes|
    requires forall i :: 0 <= i < |itemCodes| ==> Expired(time, maxAge, env[i].now)
    ensures var b := RunBatch(prices, log, time, maxAge, itemCodes, env);
            |b.log| == |itemCodes| + |log| && b.log[|itemCodes|..] == log &&
            forall i :: 0 <= i < |itemCodes| ==>
              b.log[|itemCodes| - 1 - i] == ServiceCall(itemCodes[i], env[i].answer)
    decreases |itemCodes|
  {
    if itemCodes != [] {
      var n := |itemCodes| - 1;
      BatchAllExpired(prices, log, time, maxAge, itemCodes[..n], env[..n]);
      var before := RunBatch(prices, log, time, maxAge, itemCodes[..n], env[..n]);
      var b := RunBatch(prices, log, time, maxAge, itemCodes, env);
      assert b.log == [ServiceCall(itemCodes[n], env[n].answer)] + before.log;
      assert b.log[|itemCodes|..] == before.log[n..];
      forall i | 0 <= i < |itemCodes|
        ensures b.log[|itemCodes| - 1 - i] == ServiceCall(itemCodes[i], env[i].answer)
      {
        if i < n {
          assert b.log[|itemCodes| - 1 - i] == before.log[n - 1 - i];
        }
      }
    }
  }

  /** A key that a batch added to the table is the key of some position whose
      service answer was a price. */
  lemma {:induction false} BatchNewKeyWasFetched(prices: map<string, Price>, log: seq<ServiceCall>, time: int, maxAge: int,
                                                 itemCodes: seq<string>, env: seq<LookupEnv>, k: string)
    requires |env| == |itemCodes|
    requires k in RunBatch(prices, log, time, maxAge, itemCodes, env).prices && k !in prices
    ensures exists i :: 0 <= i < |itemCodes| && itemCodes[i] == k && env[i].answer.Fetched?
    decreases |itemCodes|
  {
    var n := |itemCodes| - 1;
    var before := RunBatch(prices, log, time, maxAge, itemCodes[..n], env[..n]);
    if k in before.prices {
      BatchNewKeyWasFetched(prices, log, time, maxAge, itemCodes[..n], env[..n], k);
      var i :| 0 <= i < n && itemCodes[..n][i] == k && env[..n][i].answer.Fetched?;
      assert itemCodes[i] == k && env[i].answer.Fetched?;
    } else {
      assert itemCodes[n] == k && env[n].answer.Fetched?;
    }
  }

  // ---------------------------------------------------------------------------
  // Scenarios

  /** One-minute window, clock in seconds from construction at 0: the first
      lookup asks the service, a repeat (also at the expiry instant) does
      not, and one two minutes later asks again. No lookup reports an error.
      `requests[k]` is the number of service requests after lookup `k`. */
  method AppleScenario() returns (first: Price, second: Price, atExpiry: Price, later: Price,
                                  errs: seq<Option<CacheError>>, ghost requests: seq<nat>)
    ensures first == 1.5 && second == 1.5 && atExpiry == 1.5 && later == 1.75
    ensures errs == [None, None, None, None]
    ensures requests == [1, 1, 1, 2]
  {
    var cache := new TransparentCache(60, 0);
    var err;
    first, err := cache.GetPriceFor("APPLE", 0, Fetched(1.5));
    errs, requests := [err], [|cache.serviceLog|];
    second, err := cache.GetPriceFor("APPLE", 1, Fetched(9.0));
    errs, requests := errs + [err], requests + [|cache.serviceLog|];
    atExpiry, err := cache.GetPriceFor("APPLE", 60, Fetched(9.0));
    errs, requests := errs + [err], requests + [|cache.serviceLog|];
    later, err := cache.GetPriceFor("APPLE", 120, Fetched(1.75));
    errs, requests := errs + [err], requests + [|cache.serviceLog|];
  }

  /** A batch of "A", "B", "C" in which only "B" fails: the program's
      GetPricesFor puts ZeroPrice at position 1 and reports no error; the
      corrected variant reports B's failure. */
  method MixedBatchScenario() returns (asWritten: Option<CacheError>, corrected: Option<CacheError>, atB: Price)
    ensures asWritten == None && atB == ZeroPrice
    ensures corrected == Some(UpstreamFetchFailed("B unavailable"))
  {
    var keys := ["A", "B", "C"];
    var env := [LookupEnv(0, Fetched(1.0)), LookupEnv(0, FetchFailed("B unavailable")), LookupEnv(0, Fetched(3.0))];
    ghost var b := RunBatch(map[], [], 0, 60, keys, env);
    AsWrittenBatchHidesFailure();
    BatchPosition(map[], [], 0, 60, keys, env, 0);
    assert keys[..0] == [] && env[..0] == [];
    assert b.lookups[0].err == None;
    assert b.lookups[1..][0] == b.lookups[1];
    var cache := new TransparentCache(60, 0);
    var results;
    results, asWritten := cache.GetPricesFor(keys, env);
    atB := results[1];
    var again := new TransparentCache(60, 0);
    results, corrected := again.GetPricesForReportingFailures(keys, env);
  }

  // ---------------------------------------------------------------------------
  // Batch error reporting

  /** The program's GetPricesFor breaks its documented contract: in the batch
      above, position 1 failed, yet the error it returns (always None) does
      not report it. */
  lemma AsWrittenBatchHidesFailure()
    ensures var b := RunBatch(map[], [], 0, 60, ["A", "B", "C"],
                              [LookupEnv(0, Fetched(1.0)), LookupEnv(0, FetchFailed("B unavailable")), LookupEnv(0, Fetched(3.0))]);
            b.lookups[1] == Lookup(ZeroPrice, Some(UpstreamFetchFailed("B unavailable"))) &&
            !ReportsEveryFailure(b.lookups, None)
  {
    var keys := ["A", "B", "C"];
    var env := [LookupEnv(0, Fetched(1.0)), LookupEnv(0, FetchFailed("B unavailable")), LookupEnv(0, Fetched(3.0))];
    BatchPosition(map[], [], 0, 60, keys, env, 1);
    assert keys[..1] == ["A"] && env[..1] == [LookupEnv(0, Fetched(1.0))];
  }

  /** The corrected batch error is None exactly when every position succeeded,
      so it both reports every failure and reports nothing otherwise. */
  lemma {:induction false} CorrectedBatchErrorExact(lookups: seq<Lookup>)
    ensures ReportsEveryFailure(lookups, FirstFailure(lookups))
    ensures FirstFailure(lookups).None? <==> forall i :: 0 <= i < |lookups| ==> lookups[i].err.None?
  {
    FirstFailureSpec(lookups);
  }
}
