/**
 * The class-level metadata cache of the node: the voice options and model
 * options offered to the host, refreshed when absent or older than one hour.
 * Both lists share one timestamp. The wall clock and the provider's voice
 * listing are parameters: `now` is the reading `time.time()` would give, and
 * `VoiceListing` is what the HTTP request for the voice list ended in.
 */
module MetadataCache {

  import opened Wrappers
  import VoiceId

  /** Seconds after the last refresh during which a cached list is served as it is. */
  const CacheDuration: real := 3600.0

  /** The single option offered when the voice list could not be fetched. */
  const VoiceFetchError: string := "error_fetching_voices"

  /** The fixed model options. */
  const KnownModels: seq<string> := ["eleven_multilingual_v2", "eleven_english_sts_v2", "eleven_turbo_v2"]

  /** One voice of the provider's listing. */
  datatype Voice = Voice(name: string, voiceId: string)

  /**
   * How the voice request ended: `RequestFailed` is any request error (no
   * connection, an HTTP error status, a body that is not JSON, which
   * `requests` 2.27 and later raise as a request error); `Listed` is a
   * readable listing; `Unreadable` is a JSON body without the `voices` list or
   * with an entry lacking `name` or `voice_id`, whose error is not a request
   * error and so escapes the fetch.
   */
  datatype VoiceListing = RequestFailed | Listed(voices: seq<Voice>) | Unreadable

  /** The three class attributes the fetches read and write. */
  datatype Cache = Cache(voices: Option<seq<string>>, models: Option<seq<string>>, lastFetchTime: real)

  /** What a fetch gives its caller: the option list, or an error raised through it. */
  datatype Answer = Options(options: seq<string>) | Raised

  /** The class attributes before any fetch. */
  const Initial: Cache := Cache(None, None, 0.0)

  /** The guard both fetches share: nothing cached yet, or the last refresh is over an hour old. */
  predicate NeedsRefresh(cached: Option<seq<string>>, lastFetchTime: real, now: real)
  {
    cached.None? || now - lastFetchTime > CacheDuration
  }

  /**
   * The voice options built from a listing (the list comprehension): one
   * `name (voice_id)` entry per voice, in order, each giving back its voice's
   * id when parsed, provided the id is well formed.
   */
  function VoiceOptions(voices: seq<Voice>): (options: seq<string>)
    ensures |options| == |voices|
    ensures forall i :: 0 <= i < |voices| && VoiceId.WellFormedId(voices[i].voiceId) ==>
      VoiceId.ParseVoiceId(options[i]) == voices[i].voiceId
  {
    var options := seq(|voices|, i requires 0 <= i < |voices| => VoiceId.FormatVoiceEntry(voices[i].name, voices[i].voiceId));
    assert forall i :: 0 <= i < |voices| && VoiceId.WellFormedId(voices[i].voiceId) ==>
      VoiceId.ParseVoiceId(options[i]) == voices[i].voiceId by {
      forall i | 0 <= i < |voices| && VoiceId.WellFormedId(voices[i].voiceId)
        ensures VoiceId.ParseVoiceId(options[i]) == voices[i].voiceId
      {
        VoiceId.ParseFormattedEntry(voices[i].name, voices[i].voiceId);
      }
    }
    options
  }

  /**
   * `fetch_elevenlabs_voices`: the new class attributes and the answer. The
   * models are never touched; what is answered is what is then cached; an
   * escaping error changes nothing; the timestamp is kept or becomes `now`.
   */
  function FetchVoices(c: Cache, now: real, listing: VoiceListing): (r: (Cache, Answer))
    ensures r.0.models == c.models
    ensures r.1.Options? ==> r.0.voices == Some(r.1.options)
    ensures r.1.Raised? ==> r.0 == c
    ensures r.0.lastFetchTime == c.lastFetchTime || r.0.lastFetchTime == now
  {
    if !NeedsRefresh(c.voices, c.lastFetchTime, now) then
      (c, Options(c.voices.value))
    else
      match listing
      case Listed(voices) =>
        var options := VoiceOptions(voices);
        (c.(voices := Some(options), lastFetchTime := now), Options(options))
      case RequestFailed =>
        (c.(voices := Some([VoiceFetchError])), Options([VoiceFetchError]))
      case Unreadable =>
        (c, Raised)
  }

  /**
   * `fetch_elevenlabs_models`: the new class attributes and the model options.
   * The voices are never touched, what is answered is what is then cached, and
   * from a cache holding no other model list the answer is the fixed list.
   */
  function FetchModels(c: Cache, now: real): (r: (Cache, seq<string>))
    ensures r.0.voices == c.voices
    ensures r.0.models == Some(r.1)
    ensures (c.models.None? || c.models.value == KnownModels) ==> r.1 == KnownModels
  {
    if !NeedsRefresh(c.models, c.lastFetchTime, now) then
      (c, c.models.value)
    else
      (c.(models := Some(KnownModels), lastFetchTime := now), KnownModels)
  }

  /**
   * The two fetches as `INPUT_TYPES` makes them: voices first, then models,
   * each reading the clock itself. An error escaping the voice fetch ends the
   * call before the models are fetched, and leaves the attributes as they were.
   */
  function FetchOptions(c: Cache, voicesNow: real, modelsNow: real, listing: VoiceListing): (r: (Cache, Answer, Option<seq<string>>))
    ensures r.1.Raised? <==> r.2.None?
    ensures r.1.Raised? ==> r.0 == c
    ensures r.1.Options? ==> r.0.voices == Some(r.1.options) && r.0.models == Some(r.2.value)
  {
    var (afterVoices, voices) := FetchVoices(c, voicesNow, listing);
    if voices.Raised? then (afterVoices, voices, None)
    else
      var (afterModels, models) := FetchModels(afterVoices, modelsNow);
      (afterModels, voices, Some(models))
  }

  /**
   * What the cache can hold: nothing, the error option, or the entries of some
   * listing for the voices; nothing or the fixed list for the models.
   */
  ghost predicate Valid(c: Cache)
  {
    && (c.voices.None? || c.voices.value == [VoiceFetchError] || exists vs :: c.voices.value == VoiceOptions(vs))
    && (c.models.None? || c.models.value == KnownModels)
  }

  /** A fresh voice list is served unchanged, whatever the provider would have answered, and nothing changes. */
  lemma FreshVoicesServedFromCache(c: Cache, now: real, listing: VoiceListing, other: VoiceListing)
    requires c.voices.Some? && now - c.lastFetchTime <= CacheDuration
    ensures FetchVoices(c, now, listing) == (c, Options(c.voices.value))
    ensures FetchVoices(c, now, listing) == FetchVoices(c, now, other)
  {
  }

  /**
   * A fresh model list is served unchanged and nothing changes; in particular
   * the shared timestamp is not renewed.
   */
  lemma FreshModelsServedFromCache(c: Cache, now: real)
    requires c.models.Some? && now - c.lastFetchTime <= CacheDuration
    ensures FetchModels(c, now) == (c, c.models.value)
    ensures FetchModels(c, now).0.lastFetchTime == c.lastFetchTime
  {
  }

  /**
   * A refresh with a readable listing caches and serves one option per voice,
   * in order, from which the voice's id parses back whenever the id is well
   * formed; the shared timestamp becomes `now` and the models are untouched.
   */
  lemma RefreshedVoicesParseBack(c: Cache, now: real, voices: seq<Voice>)
    requires NeedsRefresh(c.voices, c.lastFetchTime, now)
    ensures var (after, answer) := FetchVoices(c, now, Listed(voices));
      && after.lastFetchTime == now
      && after.models == c.models
      && after.voices.Some? && answer == Options(after.voices.value)
      && |after.voices.value| == |voices|
      && forall i :: 0 <= i < |voices| && VoiceId.WellFormedId(voices[i].voiceId) ==>
           VoiceId.ParseVoiceId(after.voices.value[i]) == voices[i].voiceId
  {
    var options := VoiceOptions(voices);
    assert FetchVoices(c, now, Listed(voices)).0.voices == Some(options);
  }

  /**
   * Every due refresh whose request fails, whether the list was absent or
   * expired, caches exactly the error option and answers it, keeping the
   * timestamp and the models.
   */
  lemma FailedRefreshOverwrites(c: Cache, now: real)
    requires NeedsRefresh(c.voices, c.lastFetchTime, now)
    ensures FetchVoices(c, now, RequestFailed) == (c.(voices := Some([VoiceFetchError])), Options([VoiceFetchError]))
  {
  }

  /**
   * Because the timestamp is kept, a failed refresh is not retried while the
   * old timestamp is still fresh: a voice list that was absent, with a recent
   * timestamp, is afterwards served as the error option, whatever the provider
   * would answer, until an hour after that old timestamp.
   */
  lemma FailedRefreshKeptUntilOldTimestampExpires(c: Cache, now: real, later: real, listing: VoiceListing)
    requires NeedsRefresh(c.voices, c.lastFetchTime, now)
    requires later - c.lastFetchTime <= CacheDuration
    ensures var after := FetchVoices(c, now, RequestFailed).0;
      FetchVoices(after, later, listing) == (after, Options([VoiceFetchError]))
  {
    FailedRefreshOverwrites(c, now);
  }

  /**
   * A failed refresh replaces the voice list, whatever it was, by the single
   * error option and keeps the timestamp; a voice list that was stale by the
   * clock is therefore fetched again when the voice fetch is called again on
   * its own. Inside `INPUT_TYPES` the model refresh that follows renews the
   * timestamp instead (`ExpiredFailureIsPinned`).
   */
  lemma FailedRefreshRetriedWhenExpired(c: Cache, now: real, later: real)
    requires now - c.lastFetchTime > CacheDuration
    requires later >= now
    ensures var (after, answer) := FetchVoices(c, now, RequestFailed);
      && after == c.(voices := Some([VoiceFetchError]))
      && answer == Options([VoiceFetchError])
      && NeedsRefresh(after.voices, after.lastFetchTime, later)
      && forall vs :: FetchVoices(after, later, Listed(vs)).1 == Options(VoiceOptions(vs))
  {
  }

  /**
   * An `INPUT_TYPES` whose voice refresh fails caches the error option and
   * keeps the old timestamp, but when the model list is due as well (always so
   * once the shared timestamp has expired) the model refresh right after it
   * renews the timestamp: for the next hour the error option is served from
   * the cache and no voice request is made, however the provider would answer.
   */
  lemma FailedRefreshPinnedByModelRefresh(c: Cache, t0: real, t1: real, t2: real, t3: real, listing: VoiceListing)
    requires NeedsRefresh(c.voices, c.lastFetchTime, t0) && NeedsRefresh(c.models, c.lastFetchTime, t1)
    requires t0 <= t1 <= t2 <= t3 <= t1 + CacheDuration
    ensures var (first, voices, models) := FetchOptions(c, t0, t1, RequestFailed);
      && voices == Options([VoiceFetchError])
      && models == Some(KnownModels)
      && first == Cache(Some([VoiceFetchError]), Some(KnownModels), t1)
      && FetchOptions(first, t2, t3, listing) == (first, Options([VoiceFetchError]), Some(KnownModels))
  {
  }

  /** Once the shared timestamp has expired, both lists are due, so a failed voice refresh is pinned as above. */
  lemma ExpiredFailureIsPinned(c: Cache, t0: real, t1: real, t2: real, t3: real, listing: VoiceListing)
    requires t0 - c.lastFetchTime > CacheDuration
    requires t0 <= t1 <= t2 <= t3 <= t1 + CacheDuration
    ensures var first := FetchOptions(c, t0, t1, RequestFailed).0;
      && first == Cache(Some([VoiceFetchError]), Some(KnownModels), t1)
      && FetchOptions(first, t2, t3, listing) == (first, Options([VoiceFetchError]), Some(KnownModels))
  {
    FailedRefreshPinnedByModelRefresh(c, t0, t1, t2, t3, listing);
  }

  /**
   * The first `INPUT_TYPES` whose voice request fails caches the error option
   * and leaves the timestamp at 0, but the model refresh right after it sets
   * the shared timestamp: for the next hour the error option is served from
   * the cache and no voice request is made, however the provider would answer.
   */
  lemma ErrorOptionPinnedByModelRefresh(t0: real, t1: real, t2: real, t3: real, listing: VoiceListing)
    requires t0 <= t1 <= t2 <= t3 <= t1 + CacheDuration
    ensures var (first, voices, models) := FetchOptions(Initial, t0, t1, RequestFailed);
      && voices == Options([VoiceFetchError])
      && models == Some(KnownModels)
      && first == Cache(Some([VoiceFetchError]), Some(KnownModels), t1)
      && FetchOptions(first, t2, t3, listing) == (first, Options([VoiceFetchError]), Some(KnownModels))
  {
    FailedRefreshPinnedByModelRefresh(Initial, t0, t1, t2, t3, listing);
  }

  /**
   * A due voice refresh raises exactly when the listing cannot be read (the
   * `KeyError` or `TypeError` of the list comprehension, which is not a request
   * error); it then leaves every attribute as it was. Any other listing answers.
   */
  lemma UnreadableRaises(c: Cache, now: real, listing: VoiceListing)
    requires NeedsRefresh(c.voices, c.lastFetchTime, now)
    ensures FetchVoices(c, now, Unreadable) == (c, Raised)
    ensures FetchVoices(c, now, listing).1.Raised? <==> listing.Unreadable?
  {
  }

  /** The models refresh always yields the fixed list, never the voice error option. */
  lemma ModelsAreFixed(c: Cache, now: real)
    requires Valid(c)
    ensures FetchModels(c, now).1 == KnownModels
    ensures FetchModels(c, now).0.models == Some(KnownModels)
    ensures VoiceFetchError !in KnownModels
  {
  }

  /**
   * The shared timestamp: a model refresh also renews a cached voice list,
   * which is then served unchanged, with no voice request, for the hour after
   * it, whatever the provider would answer.
   */
  lemma ModelRefreshRenewsVoices(c: Cache, now: real, later: real, listing: VoiceListing)
    requires c.voices.Some? && NeedsRefresh(c.models, c.lastFetchTime, now)
    requires now <= later <= now + CacheDuration
    ensures var after := FetchModels(c, now).0;
      && after.lastFetchTime == now
      && after.voices == c.voices
      && FetchVoices(after, later, listing) == (after, Options(c.voices.value))
  {
  }

  /** Each fetch keeps the cache `Valid`. */
  lemma FetchesKeepValid(c: Cache, now: real, listing: VoiceListing)
    requires Valid(c)
    ensures Valid(FetchVoices(c, now, listing).0)
    ensures Valid(FetchModels(c, now).0)
  {
    if NeedsRefresh(c.voices, c.lastFetchTime, now) && listing.Listed? {
      var after := FetchVoices(c, now, listing).0;
      assert after.voices.value == VoiceOptions(listing.voices);
    }
  }

  /** One call of either fetch, with its clock reading and, for voices, the listing. */
  datatype Call = VoicesCall(now: real, listing: VoiceListing) | ModelsCall(now: real)

  /** The class attributes after a sequence of calls. */
  function Replay(c: Cache, calls: seq<Call>): Cache
    decreases |calls|
  {
    if calls == [] then c
    else
      var next := match calls[0]
        case VoicesCall(now, listing) => FetchVoices(c, now, listing).0
        case ModelsCall(now) => FetchModels(c, now).0;
      Replay(next, calls[1..])
  }

  /** Whatever the calls, their order and the clock, the cache stays `Valid` from its initial state on. */
  lemma {:induction false} ReplayKeepsValid(c: Cache, calls: seq<Call>)
    requires Valid(c)
    ensures Valid(Replay(c, calls))
    decreases |calls|
  {
    if calls != [] {
      match calls[0]
      case VoicesCall(now, listing) =>
        FetchesKeepValid(c, now, listing);
        ReplayKeepsValid(FetchVoices(c, now, listing).0, calls[1..]);
      case ModelsCall(now) =>
        FetchesKeepValid(c, now, RequestFailed);
        ReplayKeepsValid(FetchModels(c, now).0, calls[1..]);
    }
  }

  /**
   * The class attributes of the node. One object stands for the class itself:
   * the attributes are shared by every node instance of the process.
   */
  class ElevenLabsNode {
    var voicesCache: Option<seq<string>>
    var modelsCache: Option<seq<string>>
    var lastFetchTime: real

    /** The attributes as a value. */
    function State(): Cache
      reads this
    {
      Cache(voicesCache, modelsCache, lastFetchTime)
    }

    /** The attributes as the class body declares them. */
    constructor ()
      ensures State() == Initial
    {
      voicesCache := None;
      modelsCache := None;
      lastFetchTime := 0.0;
    }

    /** `fetch_elevenlabs_voices`, with the clock reading and the request's outcome passed in. */
    method FetchElevenlabsVoices(now: real, listing: VoiceListing) returns (answer: Answer)
      modifies this
      ensures (State(), answer) == FetchVoices(old(State()), now, listing)
      ensures modelsCache == old(modelsCache)
      ensures lastFetchTime == old(lastFetchTime) || lastFetchTime == now
    {
      if voicesCache == None || now - lastFetchTime > CacheDuration {
        match listing
        case Listed(voices) =>
          var options := VoiceOptions(voices);
          voicesCache := Some(options);
          lastFetchTime := now;
        case RequestFailed =>
          voicesCache := Some([VoiceFetchError]);
        case Unreadable =>
          return Raised;
      }
      answer := Options(voicesCache.value);
    }

    /** `fetch_elevenlabs_models`, with the clock reading passed in. */
    method FetchElevenlabsModels(now: real) returns (models: seq<string>)
      modifies this
      ensures (State(), models) == FetchModels(old(State()), now)
      ensures voicesCache == old(voicesCache)
      ensures modelsCache == Some(models)
    {
      if modelsCache == None || now - lastFetchTime > CacheDuration {
        modelsCache := Some(KnownModels);
        lastFetchTime := now;
      }
      models := modelsCache.value;
    }

    /** The two fetches of `INPUT_TYPES`, in its order; the schema built around them is not modelled. */
    method FetchInputOptions(voicesNow: real, modelsNow: real, listing: VoiceListing)
      returns (voices: Answer, models: Option<seq<string>>)
      modifies this
      ensures (State(), voices, models) == FetchOptions(old(State()), voicesNow, modelsNow, listing)
    {
      voices := FetchElevenlabsVoices(voicesNow, listing);
      if voices.Raised? {
        models := None;
        return;
      }
      var fixed := FetchElevenlabsModels(modelsNow);
      models := Some(fixed);
    }
  }
}
