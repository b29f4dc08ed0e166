/** The metal price lookup: a per-(asset, country) cache with a ten-minute
    lifetime in front of one DuckDuckGo Instant Answer request, whose
    `Answer` and `RelatedTopics` texts are searched for a number, with a
    seed table when nothing usable comes back and an emergency fallback
    when the request itself raises.

    The request, the clock and `datetime.utcnow().isoformat()` are
    parameters: `response` is what the request produced, `now` is the
    value of `time.time()` and `stamp` is the ISO timestamp text. */
module PriceFetch {
  import opened Results
  import PriceText

  /** Seconds a cached quote stays usable. */
  const CacheDuration: real := 600.0

  const GoldSeedPrice: real := 6230.50
  const SilverSeedPrice: real := 74.25
  const OtherSeedPrice: real := 5000.0

  /** One entry of `RelatedTopics`: a dict with a `Text` string, or anything else. */
  datatype Topic = OtherTopic | TextTopic(text: string)

  /** The outcome of the HTTP request and JSON decoding: either an exception
      (network error, bad status, bad JSON) with its message, or the decoded
      `Answer` (absent or a string) and `RelatedTopics` (empty when absent). */
  datatype Response =
    | Raised(message: string)
    | Received(answer: Option<string>, topics: seq<Topic>)

  /** The dict the lookup returns; `error` is present only on the emergency path. */
  datatype Quote = Quote(
    asset: string, price: real, unit: string, source: string,
    timestamp: string, location: string, error: Option<string>)

  /** Cache key to (quote, time it was stored). */
  type Cache = map<string, (Quote, real)>

  /** The lookup's result together with the cache it leaves behind. */
  datatype Fetched = Fetched(quote: Quote, cache: Cache)

  /** Python's `country or default`: both `None` and `""` are falsy. */
  function CountryOr(country: Option<string>, default: string): string
  {
    if country.Some? && country.value != "" then country.value else default
  }

  function CacheKey(asset: string, country: Option<string>): string
  {
    asset + "_" + CountryOr(country, "default")
  }

  /** The location named in the query and stored in the quote. */
  function LocationOf(country: Option<string>): string
  {
    CountryOr(country, "india")
  }

  function LowerChar(c: char): char
  {
    if 'A' <= c <= 'Z' then (c as int + 32) as char else c
  }

  /** `str.lower()` restricted to ASCII letters. */
  function Lower(s: string): string
  {
    if s == [] then [] else [LowerChar(s[0])] + Lower(s[1..])
  }

  /** The seed table, looked up by the lower-cased asset name. */
  function FallbackPrice(asset: string): (p: real)
    ensures p > 0.0
    ensures p == GoldSeedPrice <==> Lower(asset) == "gold"
    ensures p == SilverSeedPrice <==> Lower(asset) == "silver"
    ensures p == OtherSeedPrice <==> Lower(asset) != "gold" && Lower(asset) != "silver"
  {
    var a := Lower(asset);
    if a == "gold" then GoldSeedPrice
    else if a == "silver" then SilverSeedPrice
    else OtherSeedPrice
  }

  /** The price read from a non-empty `Answer` text, if its first number parses. */
  function AnswerPrice(answer: Option<string>): (v: Option<real>)
    ensures v.Some? ==> v.value >= 0.0
    ensures v.Some? <==> answer.Some? && answer.value != "" && PriceText.PriceFromText(answer.value).Some?
    ensures v.Some? ==> v == PriceText.PriceFromText(answer.value)
  {
    if answer.Some? && answer.value != "" then PriceText.PriceFromText(answer.value) else None
  }

  /** The number read from the topic's text, when it is a text topic and parses. */
  function TopicValue(t: Topic): Option<real>
  {
    match t
    case OtherTopic => None
    case TextTopic(text) => PriceText.PriceFromText(text)
  }

  /** The loop over `RelatedTopics`: the first topic whose number parses ends
      the loop, whatever that number is; unparsable topics are skipped. */
  function TopicPrice(topics: seq<Topic>): (v: Option<real>)
    ensures v.Some? ==> v.value >= 0.0
  {
    if topics == [] then None
    else if TopicValue(topics[0]).Some? then TopicValue(topics[0])
    else TopicPrice(topics[1..])
  }

  /** The price the request yields, if any counts: a zero from `Answer` is
      falsy and hands over to the topics, and a zero from the topics is falsy
      and hands over to the seed table. */
  function LivePrice(answer: Option<string>, topics: seq<Topic>): (v: Option<real>)
    ensures v.Some? ==> v.value > 0.0
    ensures v.Some? <==>
      (AnswerPrice(answer).Some? && AnswerPrice(answer).value > 0.0) ||
      (TopicPrice(topics).Some? && TopicPrice(topics).value > 0.0)
    ensures AnswerPrice(answer).Some? && AnswerPrice(answer).value > 0.0 ==> v == AnswerPrice(answer)
    ensures v.Some? && !(AnswerPrice(answer).Some? && AnswerPrice(answer).value > 0.0) ==> v == TopicPrice(topics)
  {
    var a := AnswerPrice(answer);
    if a.Some? && a.value != 0.0 then a
    else
      var t := TopicPrice(topics);
      if t.Some? && t.value != 0.0 then t else None
  }

  /** True when the cache holds an entry for `key` stored less than
      `CacheDuration` seconds before `now`. */
  predicate Fresh(cache: Cache, key: string, now: real)
  {
    key in cache && now - cache[key].1 < CacheDuration
  }

  /** `fetch_metal_price(asset, country, lat, lon)`. */
  function FetchMetalPrice(cache: Cache, asset: string, country: Option<string>,
                           lat: Option<real>, lon: Option<real>,
                           now: real, stamp: string, response: Response): (f: Fetched)
    ensures var key := CacheKey(asset, country);
      Fresh(cache, key, now) ==> f == Fetched(cache[key].0, cache)
    ensures !Fresh(cache, CacheKey(asset, country), now) ==>
      f.quote.asset == asset && f.quote.unit == "g" && f.quote.price > 0.0 &&
      f.quote.location == LocationOf(country) && f.quote.timestamp == stamp
    ensures !Fresh(cache, CacheKey(asset, country), now) && response.Raised? ==>
      f.quote.source == "fallback" && f.quote.price == FallbackPrice(asset) &&
      f.quote.error == Some(response.message) && f.cache == cache
    ensures !Fresh(cache, CacheKey(asset, country), now) && response.Received? ==>
      f.quote.error.None? &&
      f.cache == cache[CacheKey(asset, country) := (f.quote, now)] &&
      (f.quote.source == "duckduckgo" <==> LivePrice(response.answer, response.topics).Some?) &&
      (f.quote.source == "duckduckgo" ==> f.quote.price == LivePrice(response.answer, response.topics).value) &&
      (f.quote.source != "duckduckgo" ==> f.quote.source == "seed" && f.quote.price == FallbackPrice(asset))
  {
    var key := CacheKey(asset, country);
    if Fresh(cache, key, now) then Fetched(cache[key].0, cache)
    else
      var location := LocationOf(country);
      match response
      case Raised(message) =>
        Fetched(Quote(asset, FallbackPrice(asset), "g", "fallback", stamp, location, Some(message)), cache)
      case Received(answer, topics) =>
        var live := LivePrice(answer, topics);
        var q := if live.Some?
          then Quote(asset, live.value, "g", "duckduckgo", stamp, location, None)
          else Quote(asset, FallbackPrice(asset), "g", "seed", stamp, location, None);
        Fetched(q, cache[key := (q, now)])
  }

  /** The `Answer` yields a price exactly when it is non-empty and its first
      match of `[\d,]+\.?\d*` holds a digit; the price is that match with
      its commas removed, read as a decimal. */
  lemma AnswerPriceIsFirstMatch(answer: Option<string>)
    ensures AnswerPrice(answer).Some? <==>
      answer.Some? && answer.value != "" && PriceText.Search(answer.value).Some? && PriceText.HasDigit(PriceText.Search(answer.value).value.text)
    ensures AnswerPrice(answer).Some? ==>
      AnswerPrice(answer) == PriceText.ParseDecimal(PriceText.StripCommas(PriceText.Search(answer.value).value.text))
  {
    if answer.Some? && answer.value != "" {
      PriceText.PriceFromTextSomeIff(answer.value);
    }
  }

  /** A lookup that reaches the request and gets a response quotes the
      positive first number of a non-empty `Answer`; failing that, the
      positive number of the first topic that parses. */
  lemma LiveQuoteSources(cache: Cache, asset: string, country: Option<string>,
                         lat: Option<real>, lon: Option<real>, now: real, stamp: string,
                         answer: Option<string>, topics: seq<Topic>)
    requires !Fresh(cache, CacheKey(asset, country), now)
    ensures var q := FetchMetalPrice(cache, asset, country, lat, lon, now, stamp, Received(answer, topics)).quote;
      var a := if answer.Some? && answer.value != "" then PriceText.PriceFromText(answer.value) else None;
      (a.Some? && a.value > 0.0 ==> q.source == "duckduckgo" && q.price == a.value) &&
      (!(a.Some? && a.value > 0.0) && TopicPrice(topics).Some? && TopicPrice(topics).value > 0.0 ==>
         q.source == "duckduckgo" && q.price == TopicPrice(topics).value) &&
      (!(a.Some? && a.value > 0.0) && !(TopicPrice(topics).Some? && TopicPrice(topics).value > 0.0) ==>
         q.source == "seed" && q.price == FallbackPrice(asset))
  {
  }

  /** What every quote the lookup stores looks like. */
  predicate StoredQuote(q: Quote)
  {
    q.price > 0.0 && q.unit == "g" && q.error.None? &&
    (q.source == "duckduckgo" || q.source == "seed")
  }

  predicate ValidCache(cache: Cache)
  {
    forall k :: k in cache ==> StoredQuote(cache[k].0)
  }

  /** Every lookup keeps the cache valid, and from a valid cache every quote
      returned is a positive per-gram price. */
  lemma FetchKeepsCacheValid(cache: Cache, asset: string, country: Option<string>,
                             lat: Option<real>, lon: Option<real>,
                             now: real, stamp: string, response: Response)
    requires ValidCache(cache)
    ensures var f := FetchMetalPrice(cache, asset, country, lat, lon, now, stamp, response);
      ValidCache(f.cache) && f.quote.price > 0.0 && f.quote.unit == "g"
  {
    var f := FetchMetalPrice(cache, asset, country, lat, lon, now, stamp, response);
    var key := CacheKey(asset, country);
    if Fresh(cache, key, now) {
      assert StoredQuote(cache[key].0);
    } else if response.Received? {
      assert StoredQuote(f.quote);
      forall k | k in f.cache
        ensures StoredQuote(f.cache[k].0)
      {
        if k != key {
          assert f.cache[k] == cache[k];
        }
      }
    }
  }

  /** A quote stored for a key is served back, unchanged, to every lookup of
      that key within `CacheDuration`, whatever the request would say. */
  lemma FreshEntryIsServed(cache: Cache, asset: string, country: Option<string>,
                           lat: Option<real>, lon: Option<real>,
                           now: real, stamp: string, response: Response, q: Quote, stored: real)
    requires CacheKey(asset, country) in cache && cache[CacheKey(asset, country)] == (q, stored)
    requires now - stored < CacheDuration
    ensures FetchMetalPrice(cache, asset, country, lat, lon, now, stamp, response).quote == q
  {
  }

  /** A lookup that reached the request and did not raise is answered from the
      cache by any later lookup of the same asset and country within
      `CacheDuration` seconds: same quote, same timestamp. */
  lemma RefetchWithinDuration(cache: Cache, asset: string, country: Option<string>,
                              lat: Option<real>, lon: Option<real>, now: real, stamp: string,
                              response: Response,
                              lat2: Option<real>, lon2: Option<real>, later: real, stamp2: string,
                              response2: Response)
    requires !Fresh(cache, CacheKey(asset, country), now) && response.Received?
    requires later - now < CacheDuration
    ensures var f := FetchMetalPrice(cache, asset, country, lat, lon, now, stamp, response);
      FetchMetalPrice(f.cache, asset, country, lat2, lon2, later, stamp2, response2).quote == f.quote
  {
    var f := FetchMetalPrice(cache, asset, country, lat, lon, now, stamp, response);
    var key := CacheKey(asset, country);
    assert f.cache[key] == (f.quote, now);
    FreshEntryIsServed(f.cache, asset, country, lat2, lon2, later, stamp2, response2, f.quote, now);
  }

  /** An expired entry is as good as no entry at all. */
  lemma ExpiredEntryIsIgnored(cache: Cache, asset: string, country: Option<string>,
                              lat: Option<real>, lon: Option<real>,
                              now: real, stamp: string, response: Response)
    requires CacheKey(asset, country) in cache
    requires now - cache[CacheKey(asset, country)].1 >= CacheDuration
    ensures var key := CacheKey(asset, country);
      var f := FetchMetalPrice(cache, asset, country, lat, lon, now, stamp, response);
      var g := FetchMetalPrice(cache - {key}, asset, country, lat, lon, now, stamp, response);
      f.quote == g.quote && (response.Received? ==> f.cache == g.cache)
  {
    var key := CacheKey(asset, country);
    assert !Fresh(cache - {key}, key, now);
    if response.Received? {
      var f := FetchMetalPrice(cache, asset, country, lat, lon, now, stamp, response);
      assert (cache - {key})[key := (f.quote, now)] == cache[key := (f.quote, now)];
    }
  }

  /** The coordinates are accepted but play no part in the lookup. */
  lemma CoordinatesAreIgnored(cache: Cache, asset: string, country: Option<string>,
                              lat: Option<real>, lon: Option<real>,
                              lat2: Option<real>, lon2: Option<real>,
                              now: real, stamp: string, response: Response)
    ensures FetchMetalPrice(cache, asset, country, lat, lon, now, stamp, response) ==
            FetchMetalPrice(cache, asset, country, lat2, lon2, now, stamp, response)
  {
  }

  /** The cache key does not tell "no country", an empty country and the
      country "default" apart, although the location does: a quote stored for
      one is served for the others with the first one's location. */
  lemma DefaultCountrySharesKey(asset: string)
    ensures CacheKey(asset, None) == CacheKey(asset, Some("")) == CacheKey(asset, Some("default"))
    ensures LocationOf(None) == LocationOf(Some("")) == "india"
    ensures LocationOf(Some("default")) == "default"
  {
  }

  /** Characterisation of the topic loop: it yields `v` exactly when some topic
      parses to `v` and no earlier topic parses at all. */
  lemma {:induction false} TopicPriceIsFirstParsable(topics: seq<Topic>, v: real)
    ensures TopicPrice(topics) == Some(v) <==>
      exists i :: 0 <= i < |topics| && TopicValue(topics[i]) == Some(v) &&
        forall j :: 0 <= j < i ==> TopicValue(topics[j]).None?
  {
    if topics == [] {
    } else if TopicValue(topics[0]).Some? {
      if TopicPrice(topics) == Some(v) {
        assert TopicValue(topics[0]) == Some(v);
      } else {
        forall i | 0 <= i < |topics| && TopicValue(topics[i]) == Some(v)
          ensures exists j :: 0 <= j < i && TopicValue(topics[j]).Some?
        {
          assert i != 0;
          assert TopicValue(topics[0]).Some?;
        }
      }
    } else {
      var rest := topics[1..];
      TopicPriceIsFirstParsable(rest, v);
      if TopicPrice(topics) == Some(v) {
        var i :| 0 <= i < |rest| && TopicValue(rest[i]) == Some(v) &&
          forall j :: 0 <= j < i ==> TopicValue(rest[j]).None?;
        assert topics[i + 1] == rest[i];
        forall j | 0 <= j < i + 1
          ensures TopicValue(topics[j]).None?
        {
          if j > 0 {
            assert topics[j] == rest[j - 1];
          }
        }
      } else {
        forall i | 0 <= i < |topics| && TopicValue(topics[i]) == Some(v)
          ensures exists j :: 0 <= j < i && TopicValue(topics[j]).Some?
        {
          assert i != 0;
          assert topics[i] == rest[i - 1];
          var j :| 0 <= j < i - 1 && TopicValue(rest[j]).Some?;
          assert topics[j + 1] == rest[j];
        }
      }
    }
  }

  /** The seed table ignores case: "Gold", "GOLD" and "gold" all give 6230.50. */
  lemma SeedTableIgnoresCase()
    ensures FallbackPrice("Gold") == GoldSeedPrice
    ensures FallbackPrice("SILVER") == SilverSeedPrice
    ensures FallbackPrice("platinum") == OtherSeedPrice
  {
    assert FallbackPrice("Gold") == GoldSeedPrice by {
      assert Lower("Gold") == "gold";
    }
    assert FallbackPrice("SILVER") == SilverSeedPrice by {
      assert Lower("SILVER") == "silver";
    }
    assert FallbackPrice("platinum") == OtherSeedPrice by {
      assert Lower("platinum") == "platinum";
    }
  }
}
