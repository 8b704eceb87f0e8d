/** The `webfetch` tool's own decisions: the 15-minute answer cache, the
    upgrade of `http://` to `https://`, URL validation, the redirect check,
    the truncation of the converted page and what is stored. The HTTP request,
    the HTML-to-markdown conversion, `urlparse(...).netloc` and the model call
    are the environment's part and come in as parameters; clock readings are
    integers in microseconds, the resolution of `datetime`. */
module WebFetch {
  import opened PyStr

  /** `timedelta(minutes=15)` in microseconds. */
  const TTL: int := 15 * 60 * 1000000

  const MaxMarkdown: nat := 50000

  const MarkdownTruncated: string := "\n\n[Content truncated due to length...]"

  const CachedPrefix: string := "[Cached] "

  /** The fixed parts of the messages `webfetch` returns. */
  const UserMessageLead: string := "Here is the content from "
  const InvalidUrlLead: string := "Error: Invalid URL format. URL must start with http:// or https://. Got: "
  const RedirectLead: string := "Redirect detected: URL redirected from "
  const RedirectAdvice: string := "\n\nPlease make a new WebFetch request with the redirect URL to fetch the content."
  const ConversionErrorLead: string := "Error converting HTML to markdown: "
  const LlmErrorLead: string := "Error processing content with LLM: "
  const TimeoutLead: string := "Error: Request timed out after 30 seconds for URL: "
  const ConnectErrorLead: string := "Error: Failed to connect to URL: "
  const FetchErrorLead: string := "Error fetching URL: "

  /** What the request and the conversion gave. */
  datatype Fetched =
    | Response(finalUrl: string, converted: Converted)
    | Timeout
    | ConnectionError
    | HttpError(statusCode: int)
    | RequestError(message: string)

  datatype Converted = Markdown(text: string) | ConversionFailed(message: string)

  /** What the model call gave. */
  datatype Reply = Answer(content: string) | LlmFailed(message: string)

  /** A cached answer and the time it was stored. */
  datatype Entry = Entry(content: string, storedAt: int)

  /** A cache key identifies the request it answers: the URL and the prompt. */
  datatype Key = Key(url: string, prompt: string)

  /** `url.replace("http://", "https://", 1)` when the URL starts with "http://". */
  function Upgrade(url: string): string {
    if StartsWith(url, "http://") then ReplaceFirst(url, "http://", "https://") else url
  }

  /** Only the leading "http://" changes, and only once. */
  lemma {:induction false} UpgradeSpec(url: string)
    ensures StartsWith(url, "http://") ==> Upgrade(url) == "https://" + url[7..]
    ensures !StartsWith(url, "http://") ==> Upgrade(url) == url
  {
    if StartsWith(url, "http://") {
      assert OccursAt(url, "http://", 0);
    }
  }

  predicate ValidUrl(url: string) {
    StartsWith(url, "https://") || StartsWith(url, "http://")
  }

  /** The upgraded URL passes validation exactly when the given one starts with
      "http://" or "https://", and it never starts with "http://". */
  lemma {:induction false} ValidAfterUpgrade(url: string)
    ensures ValidUrl(Upgrade(url)) <==> ValidUrl(url)
    ensures !StartsWith(Upgrade(url), "http://")
  {
    UpgradeSpec(url);
    var u := Upgrade(url);
    if StartsWith(url, "http://") {
      assert u[..8] == "https://";
      assert u[4] != "http://"[4];
    }
  }

  /** `len(markdown) > 50000`: the first 50000 characters and a marker. */
  function TruncateMarkdown(md: string): (r: string)
    ensures |md| <= MaxMarkdown ==> r == md
    ensures |md| > MaxMarkdown ==>
      |r| == MaxMarkdown + |MarkdownTruncated| && r[..MaxMarkdown] == md[..MaxMarkdown] && EndsWith(r, MarkdownTruncated)
  {
    if |md| > MaxMarkdown then md[..MaxMarkdown] + MarkdownTruncated else md
  }

  /** The user message handed to the model. */
  function UserMessage(url: string, markdown: string, prompt: string): string {
    UserMessageLead + url + ":\n\n" + markdown + "\n\nTask: " + prompt
  }

  function InvalidUrlMessage(url: string): string {
    InvalidUrlLead + url
  }

  function RedirectMessage(from: string, to: string, newUrl: string): string {
    RedirectLead + from + " to " + to + ". New URL: " + newUrl
      + RedirectAdvice
  }

  /** The entries `_clean_cache` keeps: those at most the TTL old. The cache
      is keyed by whatever the caller builds from the URL and the prompt. */
  function Unexpired<K(==)>(cache: map<K, Entry>, now: int): map<K, Entry> {
    map k | k in cache && now - cache[k].storedAt <= TTL :: cache[k]
  }

  /** A usable cached answer for `key` at time `now`. */
  function Lookup<K(==)>(cache: map<K, Entry>, key: K, now: int): Option<string> {
    if key in cache && now - cache[key].storedAt <= TTL then Some(cache[key].content) else None
  }

  /** What one `webfetch` call returns, and the cache it leaves. */
  datatype Outcome<K(==)> = Outcome(result: string, cache: map<K, Entry>)

  /** What follows a successful request: the redirect check, then the
      conversion, the model call and the store under `key`. */
  function AfterResponse<K(==)>(cache: map<K, Entry>, key: K, url: string, prompt: string, finalUrl: string,
                                converted: Converted, storeNow: int, netloc: string -> string,
                                llm: string -> Reply): Outcome<K>
  {
    if finalUrl != url && netloc(url) != netloc(finalUrl) then
      Outcome(RedirectMessage(netloc(url), netloc(finalUrl), finalUrl), cache)
    else Summarise(cache, key, url, prompt, converted, storeNow, llm)
  }

  /** The conversion, the model call on the truncated markdown, and the store
      of the model's answer under `key`. */
  function Summarise<K(==)>(cache: map<K, Entry>, key: K, url: string, prompt: string, converted: Converted,
                            storeNow: int, llm: string -> Reply): Outcome<K>
  {
    match converted
    case ConversionFailed(m) => Outcome(ConversionErrorLead + m, cache)
    case Markdown(md) =>
      match llm(UserMessage(url, TruncateMarkdown(md), prompt))
      case LlmFailed(m) => Outcome(LlmErrorLead + m, cache)
      case Answer(c) => Outcome(c, cache[key := Entry(c, storeNow)])
  }

  /** `webfetch` on a cache keyed by `keyOf(url, prompt)`: `cleanNow`,
      `lookupNow` and `storeNow` are the three clock readings it takes, and
      `fetch` is the request and conversion for the URL actually requested. */
  function WebFetchOutcome<K(==)>(cache: map<K, Entry>, keyOf: (string, string) -> K, url0: string, prompt: string,
                                  cleanNow: int, lookupNow: int, storeNow: int,
                                  fetch: string -> Fetched, netloc: string -> string, llm: string -> Reply): Outcome<K>
  {
    var cleaned := Unexpired(cache, cleanNow);
    var url := Upgrade(url0);
    if !ValidUrl(url) then Outcome(InvalidUrlMessage(url), cleaned)
    else Requested(cleaned, keyOf(url, prompt), url, prompt, lookupNow, storeNow, fetch, netloc, llm)
  }

  /** The cache lookup under `key` for a valid URL, then the request on a miss. */
  function Requested<K(==)>(cleaned: map<K, Entry>, key: K, url: string, prompt: string, lookupNow: int,
                            storeNow: int, fetch: string -> Fetched, netloc: string -> string,
                            llm: string -> Reply): Outcome<K>
  {
    match Lookup(cleaned, key, lookupNow)
    case Some(content) => Outcome(CachedPrefix + content, cleaned)
    case None =>
      match fetch(url)
      case Timeout => Outcome(TimeoutLead + url, cleaned)
      case ConnectionError => Outcome(ConnectErrorLead + url, cleaned)
      case HttpError(s) => Outcome("Error: HTTP error " + IntToString(s) + " for URL: " + url, cleaned)
      case RequestError(m) => Outcome(FetchErrorLead + m, cleaned)
      case Response(finalUrl, converted) =>
        AfterResponse(cleaned, key, url, prompt, finalUrl, converted, storeNow, netloc, llm)
  }

  /** The key as the code builds it: `f"{url}:{prompt}"`. */
  function KeyAsWritten(url: string, prompt: string): string {
    url + ":" + prompt
  }

  /** The key that keeps the URL and the prompt apart. */
  function PairKey(url: string, prompt: string): Key {
    Key(url, prompt)
  }

  /** The module-level `_cache`. */
  class WebCache {
    var entries: map<string, Entry>

    constructor()
      ensures entries == map[]
    {
      entries := map[];
    }

    /** `_clean_cache`: collects the expired keys, then deletes them one by one. */
    method Clean(now: int)
      modifies this
      ensures entries == Unexpired(old(entries), now)
    {
      var expired := set k | k in entries && now - entries[k].storedAt > TTL;
      ghost var original := entries;
      while expired != {}
        invariant expired <= original.Keys
        invariant entries == map k | k in original && (k in expired || now - original[k].storedAt <= TTL) :: original[k]
        decreases expired
      {
        var key :| key in expired;
        entries := map k | k in entries && k != key :: entries[k];
        expired := expired - {key};
      }
    }

    /** `webfetch` */
    method Fetch(url0: string, prompt: string, cleanNow: int, lookupNow: int, storeNow: int,
                 fetch: string -> Fetched, netloc: string -> string, llm: string -> Reply)
      returns (result: string)
      modifies this
      ensures var o := WebFetchOutcome(old(entries), KeyAsWritten, url0, prompt, cleanNow, lookupNow, storeNow,
                                       fetch, netloc, llm);
        result == o.result && entries == o.cache
    {
      Clean(cleanNow);
      var url := url0;
      if StartsWith(url, "http://") {
        url := ReplaceFirst(url, "http://", "https://");
      }
      if !StartsWith(url, "https://") && !StartsWith(url, "http://") {
        return InvalidUrlMessage(url);
      }
      result := Request(url, prompt, lookupNow, storeNow, fetch, netloc, llm);
    }

    /** The cache lookup under the key as written, then the request on a miss. */
    method Request(url: string, prompt: string, lookupNow: int, storeNow: int,
                   fetch: string -> Fetched, netloc: string -> string, llm: string -> Reply)
      returns (result: string)
      modifies this
      ensures var o := Requested(old(entries), KeyAsWritten(url, prompt), url, prompt, lookupNow, storeNow,
                                 fetch, netloc, llm);
        result == o.result && entries == o.cache
    {
      var key := KeyAsWritten(url, prompt);
      if key in entries {
        var entry := entries[key];
        if lookupNow - entry.storedAt <= TTL {
          return CachedPrefix + entry.content;
        }
      }
      match fetch(url) {
        case Timeout =>
          return TimeoutLead + url;
        case ConnectionError =>
          return ConnectErrorLead + url;
        case HttpError(s) =>
          return "Error: HTTP error " + IntToString(s) + " for URL: " + url;
        case RequestError(m) =>
          return FetchErrorLead + m;
        case Response(finalUrl, converted) =>
          result := Process(url, prompt, finalUrl, converted, storeNow, netloc, llm);
      }
    }

    /** The part of `webfetch` after a successful request. */
    method Process(url: string, prompt: string, finalUrl: string, converted: Converted, storeNow: int,
                   netloc: string -> string, llm: string -> Reply) returns (result: string)
      modifies this
      ensures var o := AfterResponse(old(entries), KeyAsWritten(url, prompt), url, prompt, finalUrl, converted,
                                     storeNow, netloc, llm);
        result == o.result && entries == o.cache
    {
      if finalUrl != url {
        var originalHost := netloc(url);
        var redirectHost := netloc(finalUrl);
        if originalHost != redirectHost {
          return RedirectMessage(originalHost, redirectHost, finalUrl);
        }
      }
      result := Convert(url, prompt, converted, storeNow, llm);
    }

    /** The conversion, the truncation, the model call and the store. */
    method Convert(url: string, prompt: string, converted: Converted, storeNow: int, llm: string -> Reply)
      returns (result: string)
      modifies this
      ensures var o := Summarise(old(entries), KeyAsWritten(url, prompt), url, prompt, converted, storeNow, llm);
        result == o.result && entries == o.cache
    {
      match converted {
        case ConversionFailed(m) =>
          return ConversionErrorLead + m;
        case Markdown(md) =>
          var markdown := md;
          if |markdown| > MaxMarkdown {
            markdown := markdown[..MaxMarkdown] + MarkdownTruncated;
          }
          match llm(UserMessage(url, markdown, prompt)) {
            case LlmFailed(m) =>
              return LlmErrorLead + m;
            case Answer(c) =>
              entries := entries[KeyAsWritten(url, prompt) := Entry(c, storeNow)];
              result := c;
          }
      }
    }
  }

  /** After a successful request the cache is unchanged, or gains the model's
      answer under this request's key, stamped with the time of the store. */
  lemma {:induction false} AfterResponseCache<K>(cache: map<K, Entry>, key: K, url: string, prompt: string,
                                                     finalUrl: string, converted: Converted, storeNow: int,
                                                     netloc: string -> string, llm: string -> Reply)
    ensures var o := AfterResponse(cache, key, url, prompt, finalUrl, converted, storeNow, netloc, llm);
      o.cache == cache
      || (o.cache == cache[key := Entry(o.result, storeNow)]
          && converted.Markdown?
          && llm(UserMessage(url, TruncateMarkdown(converted.text), prompt)) == Answer(o.result))
  {
    var o := AfterResponse(cache, key, url, prompt, finalUrl, converted, storeNow, netloc, llm);
    if finalUrl != url && netloc(url) != netloc(finalUrl) {
      assert o.cache == cache;
    } else {
      assert o == Summarise(cache, key, url, prompt, converted, storeNow, llm);
      SummariseCache(cache, key, url, prompt, converted, storeNow, llm);
    }
  }

  /** The conversion and the model call leave the cache as it was, or add the
      model's answer under this request's key. */
  lemma {:induction false} SummariseCache<K>(cache: map<K, Entry>, key: K, url: string, prompt: string,
                                                 converted: Converted, storeNow: int, llm: string -> Reply)
    ensures var o := Summarise(cache, key, url, prompt, converted, storeNow, llm);
      o.cache == cache
      || (o.cache == cache[key := Entry(o.result, storeNow)]
          && converted.Markdown?
          && llm(UserMessage(url, TruncateMarkdown(converted.text), prompt)) == Answer(o.result))
  {
    var o := Summarise(cache, key, url, prompt, converted, storeNow, llm);
    match converted {
      case ConversionFailed(m) =>
        assert o.cache == cache;
      case Markdown(md) =>
        var r := llm(UserMessage(url, TruncateMarkdown(md), prompt));
        match r {
          case LlmFailed(m) =>
            assert o.cache == cache;
          case Answer(c) =>
            assert o.result == c;
            assert o.cache == cache[key := Entry(c, storeNow)];
        }
    }
  }

  /** The cache only ever loses expired entries or gains the answer just
      given, under this request's key and stamped with the time of the store;
      nothing else changes. */
  lemma {:induction false} CacheChanges<K>(cache: map<K, Entry>, keyOf: (string, string) -> K, url0: string,
                                               prompt: string, cleanNow: int, lookupNow: int, storeNow: int,
                                               fetch: string -> Fetched, netloc: string -> string,
                                               llm: string -> Reply)
    ensures var o := WebFetchOutcome(cache, keyOf, url0, prompt, cleanNow, lookupNow, storeNow, fetch, netloc, llm);
      var cleaned := Unexpired(cache, cleanNow);
      var url := Upgrade(url0);
      o.cache == cleaned
      || (o.cache == cleaned[keyOf(url, prompt) := Entry(o.result, storeNow)]
          && fetch(url).Response?
          && fetch(url).converted.Markdown?
          && llm(UserMessage(url, TruncateMarkdown(fetch(url).converted.text), prompt)) == Answer(o.result))
  {
    var cleaned := Unexpired(cache, cleanNow);
    var url := Upgrade(url0);
    if ValidUrl(url) && Lookup(cleaned, keyOf(url, prompt), lookupNow).None? && fetch(url).Response? {
      AfterResponseCache(cleaned, keyOf(url, prompt), url, prompt, fetch(url).finalUrl, fetch(url).converted,
                         storeNow, netloc, llm);
    }
  }

  /** A usable cached answer is returned without consulting the network or the
      model, and the cache is only cleaned. */
  lemma {:induction false} HitSkipsFetch<K>(cache: map<K, Entry>, keyOf: (string, string) -> K, url0: string,
                                                prompt: string, cleanNow: int, lookupNow: int, storeNow: int,
                                                fetch: string -> Fetched, netloc: string -> string,
                                                llm: string -> Reply)
    requires ValidUrl(url0)
    requires Lookup(Unexpired(cache, cleanNow), keyOf(Upgrade(url0), prompt), lookupNow).Some?
    ensures var o := WebFetchOutcome(cache, keyOf, url0, prompt, cleanNow, lookupNow, storeNow, fetch, netloc, llm);
      && o.result == CachedPrefix + cache[keyOf(Upgrade(url0), prompt)].content
      && o.cache == Unexpired(cache, cleanNow)
  {
    ValidAfterUpgrade(url0);
  }

  /** An answer just stored is served from the cache to the same request for
      the next 15 minutes. */
  lemma {:induction false} AnswerIsReused<K>(cache: map<K, Entry>, keyOf: (string, string) -> K, url0: string,
                                                 prompt: string, storeNow: int, cleanNow: int, lookupNow: int,
                                                 answer: string, fetch: string -> Fetched, netloc: string -> string,
                                                 llm: string -> Reply, fetch2: string -> Fetched,
                                                 llm2: string -> Reply, t: int, t2: int, t3: int)
    requires ValidUrl(url0)
    requires var o := WebFetchOutcome(cache, keyOf, url0, prompt, cleanNow, lookupNow, storeNow, fetch, netloc, llm);
      keyOf(Upgrade(url0), prompt) in o.cache && o.cache[keyOf(Upgrade(url0), prompt)] == Entry(answer, storeNow)
    requires t - storeNow <= TTL && t2 - storeNow <= TTL
    ensures var o := WebFetchOutcome(cache, keyOf, url0, prompt, cleanNow, lookupNow, storeNow, fetch, netloc, llm);
      WebFetchOutcome(o.cache, keyOf, url0, prompt, t, t2, t3, fetch2, netloc, llm2).result == CachedPrefix + answer
  {
    var o := WebFetchOutcome(cache, keyOf, url0, prompt, cleanNow, lookupNow, storeNow, fetch, netloc, llm);
    var key := keyOf(Upgrade(url0), prompt);
    ValidAfterUpgrade(url0);
    assert key in Unexpired(o.cache, t);
  }

  /** The result depends on the cache only through the lookup of the
      request's own key. */
  lemma {:induction false} ResultFollowsLookup<K1, K2>(c1: map<K1, Entry>, k1: K1, c2: map<K2, Entry>, k2: K2,
                                                               url: string, prompt: string, lookupNow: int,
                                                               storeNow: int, fetch: string -> Fetched,
                                                               netloc: string -> string, llm: string -> Reply)
    requires Lookup(c1, k1, lookupNow) == Lookup(c2, k2, lookupNow)
    ensures Requested(c1, k1, url, prompt, lookupNow, storeNow, fetch, netloc, llm).result
         == Requested(c2, k2, url, prompt, lookupNow, storeNow, fetch, netloc, llm).result
  {
    if Lookup(c1, k1, lookupNow).None? && fetch(url).Response? {
      var finalUrl, converted := fetch(url).finalUrl, fetch(url).converted;
      if !(finalUrl != url && netloc(url) != netloc(finalUrl)) && converted.Markdown? {
        var r := llm(UserMessage(url, TruncateMarkdown(converted.text), prompt));
        assert Requested(c1, k1, url, prompt, lookupNow, storeNow, fetch, netloc, llm).result
            == (if r.Answer? then r.content else LlmErrorLead + r.message);
      }
    }
  }

  // ---- The key as written ----

  /** The two requests of the collision below. */
  const PortUrl: string := "https://example.com:8080/page"
  const PortPrompt: string := "summarize"
  const HostUrl: string := "https://example.com"
  const HostPrompt: string := "8080/page:summarize"

  /** A request on a port and a request whose prompt begins with that port
      share a key as written, though they are different requests. */
  lemma {:induction false} KeyAsWrittenCollides()
    ensures KeyAsWritten(PortUrl, PortPrompt) == KeyAsWritten(HostUrl, HostPrompt)
    ensures PairKey(PortUrl, PortPrompt) != PairKey(HostUrl, HostPrompt)
  {
    assert PortUrl[19] != HostUrl[..19][18];
  }

  /** An https URL is valid and is left as it is. */
  lemma {:induction false} HttpsKept(url: string)
    requires StartsWith(url, "https://")
    ensures Upgrade(url) == url && ValidUrl(url)
  {
    assert url[..7][4] == 's' != "http://"[4];
    UpgradeSpec(url);
  }

  /** Both example URLs are valid and are not upgraded. */
  lemma {:induction false} ExampleUrls()
    ensures Upgrade(PortUrl) == PortUrl && ValidUrl(PortUrl)
    ensures Upgrade(HostUrl) == HostUrl && ValidUrl(HostUrl)
  {
    assert PortUrl == "https://" + PortUrl[8..];
    assert HostUrl == "https://" + HostUrl[8..];
    HttpsKept(PortUrl);
    HttpsKept(HostUrl);
  }

  /** `webfetch` as written: starting from an empty cache, the request on the
      port is fetched and answered; within 15 minutes the other request of the
      pair is then answered from the cache with that answer, and neither its
      own page nor the model is consulted. */
  lemma {:induction false} AsWrittenServesOtherRequest(md: string, answer: string, cleanNow: int, lookupNow: int,
                                                       storeNow: int, fetch: string -> Fetched,
                                                       netloc: string -> string, llm: string -> Reply,
                                                       t: int, t2: int, t3: int, fetch2: string -> Fetched,
                                                       llm2: string -> Reply)
    requires fetch(PortUrl) == Response(PortUrl, Markdown(md))
    requires llm(UserMessage(PortUrl, TruncateMarkdown(md), PortPrompt)) == Answer(answer)
    requires t - storeNow <= TTL && t2 - storeNow <= TTL
    ensures var first := WebFetchOutcome(map[], KeyAsWritten, PortUrl, PortPrompt, cleanNow, lookupNow, storeNow,
                                         fetch, netloc, llm);
      && first.result == answer
      && WebFetchOutcome(first.cache, KeyAsWritten, HostUrl, HostPrompt, t, t2, t3, fetch2, netloc, llm2).result
         == CachedPrefix + answer
  {
    ExampleUrls();
    KeyAsWrittenCollides();
    var key := KeyAsWritten(PortUrl, PortPrompt);
    var empty: map<string, Entry> := map[];
    assert Unexpired(empty, cleanNow) == empty;
    var first := WebFetchOutcome(empty, KeyAsWritten, PortUrl, PortPrompt, cleanNow, lookupNow, storeNow,
                                 fetch, netloc, llm);
    assert first == Outcome(answer, empty[key := Entry(answer, storeNow)]);
    assert key in Unexpired(first.cache, t);
  }

  /** With the URL and the prompt kept apart, storing an answer for one
      request never changes what another request is answered. */
  lemma {:induction false} KeyedAnswersStayWithTheirRequest(cache: map<Key, Entry>, url: string, prompt: string,
                                                            e: Entry, url2: string, prompt2: string,
                                                            lookupNow: int, storeNow: int,
                                                            fetch: string -> Fetched, netloc: string -> string,
                                                            llm: string -> Reply)
    requires (url, prompt) != (url2, prompt2)
    ensures Requested(cache[PairKey(url, prompt) := e], PairKey(url2, prompt2), url2, prompt2, lookupNow, storeNow,
                      fetch, netloc, llm).result
         == Requested(cache, PairKey(url2, prompt2), url2, prompt2, lookupNow, storeNow, fetch, netloc, llm).result
  {
    assert Lookup(cache[PairKey(url, prompt) := e], PairKey(url2, prompt2), lookupNow)
        == Lookup(cache, PairKey(url2, prompt2), lookupNow);
    ResultFollowsLookup(cache[PairKey(url, prompt) := e], PairKey(url2, prompt2), cache, PairKey(url2, prompt2),
                        url2, prompt2, lookupNow, storeNow, fetch, netloc, llm);
  }

  /** The key as written and the pair key give the same answer whenever the
      joined-key cache holds exactly the pair-keyed entries and no other
      stored request shares this request's joined key. */
  lemma {:induction false} AsWrittenAgreesWithoutCollision(keyed: map<Key, Entry>, joined: map<string, Entry>,
                                                           url: string, prompt: string, lookupNow: int,
                                                           storeNow: int, fetch: string -> Fetched,
                                                           netloc: string -> string, llm: string -> Reply)
    requires forall k :: k in keyed ==> KeyAsWritten(k.url, k.prompt) in joined
    requires forall k :: k in keyed ==> joined[KeyAsWritten(k.url, k.prompt)] == keyed[k]
    requires forall s :: s in joined ==> exists k :: k in keyed && s == KeyAsWritten(k.url, k.prompt)
    requires forall k :: k in keyed && KeyAsWritten(k.url, k.prompt) == KeyAsWritten(url, prompt) ==> k == Key(url, prompt)
    ensures Requested(joined, KeyAsWritten(url, prompt), url, prompt, lookupNow, storeNow, fetch, netloc, llm).result
         == Requested(keyed, PairKey(url, prompt), url, prompt, lookupNow, storeNow, fetch, netloc, llm).result
  {
    var s := KeyAsWritten(url, prompt);
    var k := PairKey(url, prompt);
    if k in keyed {
      assert k.url == url && k.prompt == prompt;
      assert s in joined && joined[s] == keyed[k];
    } else {
      assert s !in joined;
    }
    assert Lookup(joined, s, lookupNow) == Lookup(keyed, k, lookupNow);
    ResultFollowsLookup(joined, s, keyed, k, url, prompt, lookupNow, storeNow, fetch, netloc, llm);
  }
}
