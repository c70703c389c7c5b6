/**
 The decision each route handler of src/server.js takes, as a function from
 the request's path parameter and query, the configuration, and the outcomes
 of the requests the handler would make, to the reply. Handlers that go
 through a cache also return the cache as they leave it.
 */
module Routes {
  import opened Wrappers
  import opened Text
  import opened Js
  import opened Http
  import opened Subscription
  import opened Cache
  import opened Catalog
  import opened Manifest

  // ---------------------------------------------------------------------
  // Configuration and query
  // ---------------------------------------------------------------------

  /** The video every inactive subscriber is sent to, unless configured. */
  const DefaultExpiredVideoUrl: string := "http://bdstream.site/playback_video/fall.mp4"

  /** The environment settings the handlers read; None is an unset variable. */
  datatype Environment = Environment(
    expiredVideoUrl: Option<string>,  // EXPIRED_VIDEO_URL
    proxySegments: Option<string>,    // PROXY_SEGMENTS
    fallbackMode: Option<string>,     // PROXY_FALLBACK_MODE
    nvisionSource: Option<string>,    // NVSIONBD_M3U
    bdixSource: Option<string>,       // BDIX_M3U
    ttlSeconds: int)                  // CACHE_TTL_SECONDS, 60 when unset

  /** The settings as the handlers use them. */
  datatype Config = Config(
    expiredVideoUrl: string,
    proxySegments: bool,
    fallbackMode: Option<string>,
    nvisionSource: Option<string>,
    bdixSource: Option<string>,
    ttlSeconds: int)

  /** Reads the settings: an unset or empty EXPIRED_VIDEO_URL gives the
      default; segment proxying is on exactly for "true" in any letter case. */
  function ConfigOf(env: Environment): (c: Config)
    ensures c.expiredVideoUrl != ""
    ensures env.expiredVideoUrl.Some? && env.expiredVideoUrl.value != "" ==> c.expiredVideoUrl == env.expiredVideoUrl.value
    ensures c.proxySegments ==> env.proxySegments.Some? && |env.proxySegments.value| == 4
    ensures env.proxySegments == Some("TRUE") ==> c.proxySegments
  {
    var expired := if env.expiredVideoUrl.Some? && env.expiredVideoUrl.value != "" then env.expiredVideoUrl.value
                   else DefaultExpiredVideoUrl;
    var proxy := Lower(env.proxySegments.GetOr("")) == "true";
    assert Lower("TRUE") == "true";
    Config(expired, proxy, env.fallbackMode, env.nvisionSource, env.bdixSource, env.ttlSeconds)
  }

  /** The query parameters the handlers read; None is an absent parameter. */
  datatype Query = Query(m3u: Option<string>, subscriber: Option<string>)

  /** `req.query.m3u === '1' || req.query.m3u === 'true'`. */
  predicate WantsM3U(q: Query) {
    q.m3u == Some("1") || q.m3u == Some("true")
  }

  /** The redirect every inactive subscriber gets. */
  function Expired(cfg: Config): Response {
    Redirect(JString(cfg.expiredVideoUrl))
  }

  const InternalError: Response := JsonError(500, "internal server error")
  const ChannelNotFound: Response := JsonError(404, "channel not found")

  // ---------------------------------------------------------------------
  // /rz/ch_no/:chnum
  // ---------------------------------------------------------------------

  /** The log line for a found channel converts its `name`, its `stream_path`
      (or "" when that is falsy) and its `url` to strings; each conversion
      may throw. */
  predicate ChannelLogConverts(c: Value, p: Platform)
    requires !c.JNull? && !c.JUndefined?
  {
    var path := Field(c, StreamPath);
    && ToJsString(Field(c, Name), p).Normal?
    && ToJsString(if Truthy(path) then path else JString(""), p).Normal?
    && ToJsString(Field(c, Url), p).Normal?
  }

  /** Where a found channel sends the client. */
  function ChNoTarget(url: Value, q: Query, sub: SubscriptionFetch, cfg: Config, p: Platform): (target: Value)
    // only the channel URL or the expired video
    ensures target == url || target == JString(cfg.expiredVideoUrl)
    // the expired video exactly for an inactive subscriber who asked for m3u
    ensures target != url ==> WantsM3U(q) && HasId(q.subscriber) && !Verdict(q.subscriber, sub, p)
    ensures WantsM3U(q) && HasId(q.subscriber) && !Verdict(q.subscriber, sub, p) ==> target == JString(cfg.expiredVideoUrl)
  {
    if WantsM3U(q) && HasId(q.subscriber) then
      (if Verdict(q.subscriber, sub, p) then url else JString(cfg.expiredVideoUrl))
    else url
  }

  /** The channel with number `n` in the playlist: none when the playlist or
      its channels cannot be read, or no channel matches. */
  function PlaylistChannel(playlist: Completion<Value>, n: real, p: Platform): (r: Completion<Lookup>)
    ensures playlist.Throw? ==> r.Throw?
    ensures playlist.Normal? && (playlist.value.JNull? || playlist.value.JUndefined?) ==> r.Throw?
    ensures playlist.Normal? && !playlist.value.JNull? && !playlist.value.JUndefined? ==> r.Normal?
    ensures r.Normal? ==> playlist.Normal? && PlaylistChannels(playlist.value).Normal?
                          && r.value == FindChannelByNumber(PlaylistChannels(playlist.value).value, n, p)
  {
    match playlist
    case Throw => Throw
    case Normal(pl) =>
      match PlaylistChannels(pl)
      case Throw => Throw
      case Normal(channels) => Normal(FindChannelByNumber(channels, n, p))
  }

  /** The `/rz/ch_no/:chnum` handler. `playlist` is what `fetchPlaylist()`
      yields: the parsed playlist, or a throw for a failed request, a non-2xx
      answer or a body that is not JSON. */
  function ChNo(chnum: string, q: Query, playlist: Completion<Value>, sub: SubscriptionFetch,
                cfg: Config, p: Platform): (r: Response)
    // a number that is NaN is refused before anything is fetched
    ensures p.numberOf(chnum).None? ==> r == JsonError(400, "invalid channel number")
    // a playlist that cannot be fetched or read is an internal error
    ensures p.numberOf(chnum).Some? && PlaylistChannel(playlist, p.numberOf(chnum).value, p).Throw?
            ==> r == InternalError
    // no matching channel is a 404
    ensures p.numberOf(chnum).Some? && PlaylistChannel(playlist, p.numberOf(chnum).value, p) == Normal(Missing)
            ==> r == ChannelNotFound
    // a lookup whose test throws is an internal error
    ensures p.numberOf(chnum).Some? && PlaylistChannel(playlist, p.numberOf(chnum).value, p) == Normal(Failed)
            ==> r == InternalError
    // a found channel is redirected to its target, unless its log line throws
    ensures p.numberOf(chnum).Some? && PlaylistChannel(playlist, p.numberOf(chnum).value, p).Normal? ==>
              var found := PlaylistChannel(playlist, p.numberOf(chnum).value, p).value;
              found.Found? && Truthy(found.entry)
              ==> r == (if ChannelLogConverts(found.entry, p)
                        then Redirect(ChNoTarget(Field(found.entry, Url), q, sub, cfg, p))
                        else InternalError)
    // every redirect goes to a matching channel's URL, or to the expired video
    // when an inactive subscriber asked for m3u
    ensures r.Redirect? ==>
              p.numberOf(chnum).Some?
              && var found := PlaylistChannel(playlist, p.numberOf(chnum).value, p);
                 found.Normal? && found.value.Found?
                 && r.location == ChNoTarget(Field(found.value.entry, Url), q, sub, cfg, p)
  {
    match p.numberOf(chnum)
    case None => JsonError(400, "invalid channel number")
    case Some(n) =>
      match PlaylistChannel(playlist, n, p)
      case Throw => InternalError
      case Normal(Failed) => InternalError
      case Normal(Missing) => ChannelNotFound
      case Normal(Found(c)) =>
        if !Truthy(c) then ChannelNotFound
        else if !ChannelLogConverts(c, p) then InternalError
        else Redirect(ChNoTarget(Field(c, Url), q, sub, cfg, p))
  }

  /** The subscription is asked only when m3u was requested with a
      subscriber: otherwise its answer changes nothing. */
  lemma ChNoAsksOnlyForM3uWithSubscriber(chnum: string, q: Query, playlist: Completion<Value>,
                                         sub: SubscriptionFetch, sub': SubscriptionFetch, cfg: Config, p: Platform)
    requires !(WantsM3U(q) && HasId(q.subscriber))
    ensures ChNo(chnum, q, playlist, sub, cfg, p) == ChNo(chnum, q, playlist, sub', cfg, p)
  {
  }

  // ---------------------------------------------------------------------
  // /all/*/direct
  // ---------------------------------------------------------------------

  /** The direct-redirect handler: `rawTarget` is the path between "/all/"
      and "/direct". */
  function Direct(rawTarget: string, q: Query, sub: SubscriptionFetch, cfg: Config, p: Platform): (r: Response)
    ensures rawTarget == "" ==> r == JsonError(400, "missing target url")
    ensures rawTarget != "" && WantsM3U(q) && !HasId(q.subscriber) ==> r == JsonError(400, "missing subscriber")
    // otherwise a redirect: to the decoded target (the raw one when it does
    // not decode), unless an inactive subscriber asked for m3u
    ensures rawTarget != "" && !(WantsM3U(q) && !HasId(q.subscriber)) ==>
              var target := p.decode(rawTarget).GetOr(rawTarget);
              r == (if WantsM3U(q) && !Verdict(q.subscriber, sub, p) then Expired(cfg) else Redirect(JString(target)))
  {
    if rawTarget == "" then JsonError(400, "missing target url")
    else
      var target := p.decode(rawTarget).GetOr(rawTarget);
      if WantsM3U(q) then
        if !HasId(q.subscriber) then JsonError(400, "missing subscriber")
        else if Verdict(q.subscriber, sub, p) then Redirect(JString(target))
        else Expired(cfg)
      else Redirect(JString(target))
  }

  // ---------------------------------------------------------------------
  // /nvision/:xuiId
  // ---------------------------------------------------------------------

  /** The `/nvision/:xuiId` handler at time `now`; `fetch` is what a request
      for the nvision playlist would yield, as text. */
  function Nvision(xuiId: string, q: Query, sub: SubscriptionFetch, cache: CacheState, now: int,
                   fetch: Option<string>, cfg: Config, p: Platform): (out: (Response, CacheState))
    ensures !WantsM3U(q) ==> out == (JsonError(400, "m3u=1 required"), cache)
    ensures WantsM3U(q) && !HasId(q.subscriber) ==> out == (JsonError(400, "subscriber required"), cache)
    // an inactive subscriber is sent to the expired video and the playlist is not touched
    ensures WantsM3U(q) && HasId(q.subscriber) && !Verdict(q.subscriber, sub, p) ==> out == (Expired(cfg), cache)
    // an active subscriber's reply comes from the cached or fetched playlist
    ensures WantsM3U(q) && HasId(q.subscriber) && Verdict(q.subscriber, sub, p) ==>
              var load := LoadCached(cfg.nvisionSource, cache, now, cfg.ttlSeconds,
                                     if fetch.Some? then Fetched(JString(fetch.value)) else FetchFailed);
              && out.1 == load.cache
              && (load.result.Throw? ==> out.0 == InternalError)
              && (load.result.Normal? ==> out.0 == StreamReply(load.result.value, xuiId, p))
  {
    if !WantsM3U(q) then (JsonError(400, "m3u=1 required"), cache)
    else if !HasId(q.subscriber) then (JsonError(400, "subscriber required"), cache)
    else if !Verdict(q.subscriber, sub, p) then (Expired(cfg), cache)
    else
      var source := if fetch.Some? then Fetched(JString(fetch.value)) else FetchFailed;
      var load := LoadCached(cfg.nvisionSource, cache, now, cfg.ttlSeconds, source);
      match load.result
      case Throw => (InternalError, load.cache)
      case Normal(text) => (StreamReply(text, xuiId, p), load.cache)
  }

  /** `findStreamByXuiId(m3uText, xuiId)` on the playlist value and the reply
      for its result. */
  function StreamReply(text: Value, xuiId: string, p: Platform): (r: Response)
    ensures text.JString? && StreamForXuiId(text.s, xuiId).Some? ==> r == Redirect(JString(StreamForXuiId(text.s, xuiId).value))
    ensures text.JString? && StreamForXuiId(text.s, xuiId).None? ==> r == ChannelNotFound
    ensures !Truthy(text) || xuiId == "" ==> r == ChannelNotFound
  {
    if !Truthy(text) || xuiId == "" then ChannelNotFound
    else
      match ToJsString(text, p)
      case Throw => InternalError
      case Normal(t) =>
        match StreamForXuiId(t, xuiId)
        case None => ChannelNotFound
        case Some(url) => Redirect(JString(url))
  }

  /** A stored playlist that is still fresh and lists the stream answers an
      active subscriber without a request, whatever the source would answer. */
  lemma NvisionServesFreshPlaylist(xuiId: string, q: Query, sub: SubscriptionFetch, cache: CacheState,
                                   now: int, fetch: Option<string>, cfg: Config, p: Platform, url: string)
    requires WantsM3U(q) && HasId(q.subscriber) && Verdict(q.subscriber, sub, p)
    requires Configured(cfg.nvisionSource) && cache.expiresAt > now
    requires cache.value.JString? && StreamForXuiId(cache.value.s, xuiId) == Some(url)
    ensures Nvision(xuiId, q, sub, cache, now, fetch, cfg, p) == (Redirect(JString(url)), cache)
  {
    assert cache.value.s != "";
  }

  // ---------------------------------------------------------------------
  // /bdix/:number
  // ---------------------------------------------------------------------

  /** The reply for a BDIX lookup result. */
  function BdixReply(found: Lookup, p: Platform): (r: Response)
    ensures found.Failed? ==> r == InternalError
    ensures found.Missing? ==> r == ChannelNotFound
    ensures r.Redirect? ==> found.Found? && !found.entry.JNull? && !found.entry.JUndefined?
                            && r.location == Field(found.entry, M3u8Url)
    // a found channel is redirected to its `m3u8_url`, unless its log line throws
    ensures found.Found? && Truthy(found.entry)
            ==> r == (if ToJsString(Field(found.entry, Name), p).Normal?
                      then Redirect(Field(found.entry, M3u8Url)) else InternalError)
  {
    match found
    case Failed => InternalError
    case Missing => ChannelNotFound
    case Found(c) =>
      if !Truthy(c) then ChannelNotFound
      else if ToJsString(Field(c, Name), p).Throw? then InternalError  // the log line's `${channel.name}`
      else Redirect(Field(c, M3u8Url))
  }

  /** The `/bdix/:number` handler at time `now`; `fetch` is what a request
      for the BDIX catalog would yield, as parsed JSON. */
  function Bdix(number: string, q: Query, sub: SubscriptionFetch, cache: CacheState, now: int,
                fetch: SourceFetch, cfg: Config, p: Platform): (out: (Response, CacheState))
    ensures p.numberOf(number).None? ==> out == (JsonError(400, "invalid channel number"), cache)
    ensures p.numberOf(number).Some? && !HasId(q.subscriber) ==> out == (JsonError(400, "subscriber required"), cache)
    // an inactive subscriber is sent to the expired video and the catalog is not touched
    ensures p.numberOf(number).Some? && HasId(q.subscriber) && !Verdict(q.subscriber, sub, p) ==> out == (Expired(cfg), cache)
    // an active subscriber's reply comes from the cached or fetched catalog
    ensures p.numberOf(number).Some? && HasId(q.subscriber) && Verdict(q.subscriber, sub, p) ==>
              var load := LoadCached(cfg.bdixSource, cache, now, cfg.ttlSeconds, fetch);
              && out.1 == load.cache
              && (load.result.Throw? ==> out.0 == InternalError)
              && (load.result.Normal? ==>
                    out.0 == BdixReply(FindBdixChannelByNumber(load.result.value, p.numberOf(number).value, p), p))
  {
    match p.numberOf(number)
    case None => (JsonError(400, "invalid channel number"), cache)
    case Some(n) =>
      if !HasId(q.subscriber) then (JsonError(400, "subscriber required"), cache)
      else if !Verdict(q.subscriber, sub, p) then (Expired(cfg), cache)
      else
        var load := LoadCached(cfg.bdixSource, cache, now, cfg.ttlSeconds, fetch);
        match load.result
        case Throw => (InternalError, load.cache)
        case Normal(data) => (BdixReply(FindBdixChannelByNumber(data, n, p), p), load.cache)
  }

  /** An inactive subscriber gets the same reply whether or not the channel
      exists, and whatever the catalog and the cache hold. */
  lemma BdixInactiveIgnoresCatalog(number: string, q: Query, sub: SubscriptionFetch,
                                   cache: CacheState, cache': CacheState, now: int,
                                   fetch: SourceFetch, fetch': SourceFetch, cfg: Config, p: Platform)
    requires p.numberOf(number).Some? && HasId(q.subscriber) && !Verdict(q.subscriber, sub, p)
    ensures Bdix(number, q, sub, cache, now, fetch, cfg, p).0 == Bdix(number, q, sub, cache', now, fetch', cfg, p).0
  {
  }

  // ---------------------------------------------------------------------
  // /_m3u
  // ---------------------------------------------------------------------

  /** The `/_m3u` handler: the `u` query parameter, percent-decoded, is the
      playlist to proxy. */
  function NestedPlaylist(u: Option<string>, primary: Attempt, retry: Attempt, cfg: Config, p: Platform): (r: Response)
    ensures u.None? || u.value == "" ==> r == TextReply(400, "missing u")
    ensures u.Some? && u.value != "" && p.decode(u.value).None? ==> r == TextReply(500, "internal error")
    ensures u.Some? && u.value != "" && p.decode(u.value).Some? ==>
              r == ProxyM3U8(p.decode(u.value).value, cfg.fallbackMode, cfg.proxySegments, primary, retry, p)
  {
    if u.None? || u.value == "" then TextReply(400, "missing u")
    else
      match p.decode(u.value)
      case None => TextReply(500, "internal error")
      case Some(source) => ProxyM3U8(source, cfg.fallbackMode, cfg.proxySegments, primary, retry, p)
  }
}
