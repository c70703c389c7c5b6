/**
 `proxyM3U8` (src/server.js): wraps an MP4 source in a minimal HLS playlist,
 or fetches an HLS playlist and rewrites its URI lines to absolute URLs,
 optionally routed back through the gateway's own proxy endpoints. Every
 line of an HLS playlist is a URI, blank, or begins with '#' (section 4.1
 of RFC 8216); only URI lines are rewritten.
 */
module Manifest {
  import opened Wrappers
  import opened Text
  import opened Js
  import opened Http

  // ---------------------------------------------------------------------
  // MP4 sources and the wrapper playlist
  // ---------------------------------------------------------------------

  /** The lower-cased source URL ends in ".mp4" or contains ".mp4?". */
  predicate IsMp4Source(url: string) {
    var lower := Lower(url);
    EndsWith(lower, ".mp4") || Contains(lower, ".mp4?")
  }

  /** The header lines of the wrapper playlist. */
  const WrapperHeader: seq<string> := ["#EXTM3U", "#EXTINF:-1,"]

  /** `['#EXTM3U', '#EXTINF:-1,', url].join('\n')`: the three-line playlist
      whose only entry is `url`, in its original case. */
  function WrapperManifest(url: string): string {
    JoinLines(WrapperHeader + [url])
  }

  /** The wrapper is the fixed header text followed by the URL. */
  lemma WrapperText(url: string)
    ensures WrapperManifest(url) == "#EXTM3U\n#EXTINF:-1,\n" + url
  {
    assert WrapperHeader + [url] == ["#EXTM3U"] + (["#EXTINF:-1,"] + [url]);
    JoinCons("#EXTM3U", ["#EXTINF:-1,"] + [url]);
    JoinCons("#EXTINF:-1,", [url]);
  }

  /** A player splitting the wrapper into lines finds the two header lines
      and then the source URL, when the URL has no line breaks of its own. */
  lemma WrapperLines(url: string)
    requires '\n' !in url && '\r' !in url
    ensures SplitLines(WrapperManifest(url)) == ["#EXTM3U", "#EXTINF:-1,", url]
  {
    var lines := WrapperHeader + [url];
    forall i | 0 <= i < |lines|
      ensures '\n' !in lines[i] && '\r' !in lines[i]
    {
      if i < 2 {
        assert lines[i] == WrapperHeader[i];
      }
    }
    SplitJoinLines(lines);
  }

  // ---------------------------------------------------------------------
  // The fallback mode
  // ---------------------------------------------------------------------

  /** What to answer when neither the request nor its retry succeeded. */
  datatype Fallback = RedirectToSource | WrapSource | Refuse

  /** `(PROXY_FALLBACK_MODE || 'wrapper').toLowerCase()` read as a mode:
      "redirect", "wrapper", or anything else, which is refused. */
  function FallbackModeOf(setting: Option<string>): (f: Fallback)
    ensures f == RedirectToSource <==> setting.Some? && Lower(setting.value) == "redirect"
    ensures f == WrapSource <==> setting.None? || setting.value == "" || Lower(setting.value) == "wrapper"
  {
    var mode := Lower(if setting.Some? && setting.value != "" then setting.value else "wrapper");
    assert Lower("wrapper") == "wrapper";
    if mode == "redirect" then RedirectToSource
    else if mode == "wrapper" then WrapSource
    else Refuse
  }

  // ---------------------------------------------------------------------
  // URI lines
  // ---------------------------------------------------------------------

  predicate IsAsciiLetter(c: char) {
    'a' <= c <= 'z' || 'A' <= c <= 'Z'
  }

  predicate IsSchemeChar(c: char) {
    IsAsciiLetter(c) || '0' <= c <= '9' || c == '+' || c == '.' || c == '-'
  }

  /** End of the run of scheme characters of `t` starting at `i`. */
  function SchemeRunEnd(t: string, i: nat): (n: nat)
    requires i <= |t|
    ensures i <= n <= |t|
    ensures forall k :: i <= k < n ==> IsSchemeChar(t[k])
    ensures n == |t| || !IsSchemeChar(t[n])
    decreases |t| - i
  {
    if i == |t| || !IsSchemeChar(t[i]) then i else SchemeRunEnd(t, i + 1)
  }

  /** `/^[a-zA-Z][a-zA-Z0-9+.-]*:\/\//.test(t)`, decided by the one place the
      pattern can match: ':' is not a scheme character, so "://" has to follow
      the longest run of scheme characters after the first letter. */
  predicate HasSchemePrefix(t: string) {
    |t| > 0 && IsAsciiLetter(t[0]) && StartsWith(t[SchemeRunEnd(t, 1)..], "://")
  }

  /** The pattern matches with its scheme ending at position `n`. */
  ghost predicate SchemeMatchAt(t: string, n: int) {
    && 1 <= n && n + 3 <= |t|
    && IsAsciiLetter(t[0])
    && (forall k :: 1 <= k < n ==> IsSchemeChar(t[k]))
    && t[n..n + 3] == "://"
  }

  /** The scheme test agrees with the regular expression on every text. */
  lemma SchemePrefixIsPatternMatch(t: string)
    ensures HasSchemePrefix(t) <==> exists n :: SchemeMatchAt(t, n)
  {
    if HasSchemePrefix(t) {
      assert SchemeMatchAt(t, SchemeRunEnd(t, 1));
    }
    if n :| SchemeMatchAt(t, n) {
      var e := SchemeRunEnd(t, 1);
      assert t[n] == t[n..n + 3][0] == ':';
      assert e == n;
    }
  }

  /** How one line of the playlist is rewritten against the playlist's own
      URL `base`. A blank or comment line (after trimming) stays as it is; a
      URI line keeps its trimmed text when it has a scheme, and is otherwise
      resolved against `base`, staying as it is when resolution throws. With
      segment proxying on, the absolute URL is routed through `/_m3u` when it
      names a nested playlist and through `/_segment` otherwise. */
  function RewriteLine(line: string, base: string, proxySegments: bool, p: Platform): (out: string)
    ensures var t := Trim(line);
            (t == "" || t[0] == '#') ==> out == line
    ensures proxySegments && out != line ==>
              StartsWith(out, "/_m3u?u=") || StartsWith(out, "/_segment?u=")
  {
    var t := Trim(line);
    if t == "" || t[0] == '#' then line
    else
      var absolute := if HasSchemePrefix(t) then Some(t) else p.parseUrl(t, Some(base));
      match absolute
      case None => line
      case Some(a) => if proxySegments then ProxiedUrl(a, p) else a
  }

  /** The proxy route for an absolute URL. */
  function ProxiedUrl(absolute: string, p: Platform): (out: string)
    ensures StartsWith(out, "/_m3u?u=") <==> Contains(Lower(absolute), ".m3u8")
    ensures StartsWith(out, "/_segment?u=") <==> !Contains(Lower(absolute), ".m3u8")
  {
    if Contains(Lower(absolute), ".m3u8") then
      var out := "/_m3u?u=" + p.encode(absolute);
      assert out[..8] == "/_m3u?u=" && out[2] == 'm';
      assert !StartsWith(out, "/_segment?u=") by {
        if |out| >= 12 { assert out[..12][2] == 'm'; }
      }
      out
    else
      var out := "/_segment?u=" + p.encode(absolute);
      assert out[..12] == "/_segment?u=" && out[..8][2] == 's';
      out
  }

  /** Distinct absolute URLs get distinct proxy routes when the encoding is
      injective, as `encodeURIComponent` is. */
  lemma ProxiedUrlInjective(a: string, b: string, p: Platform)
    requires forall x, y :: p.encode(x) == p.encode(y) ==> x == y
    requires ProxiedUrl(a, p) == ProxiedUrl(b, p)
    ensures a == b
  {
  }

  /** Each line rewritten, in order. */
  function RewriteLines(lines: seq<string>, base: string, proxySegments: bool, p: Platform): (out: seq<string>)
    ensures |out| == |lines|
    ensures forall i :: 0 <= i < |lines| ==> out[i] == RewriteLine(lines[i], base, proxySegments, p)
  {
    if |lines| == 0 then []
    else [RewriteLine(lines[0], base, proxySegments, p)] + RewriteLines(lines[1..], base, proxySegments, p)
  }

  /** The rewritten playlist: the lines of the `\r?\n` split, each rewritten,
      joined with "\n". */
  function RewriteManifest(text: string, base: string, proxySegments: bool, p: Platform): string {
    JoinLines(RewriteLines(SplitLines(text), base, proxySegments, p))
  }

  /** URLs from the URL parser and from the component encoder never hold a
      line break: the parser drops tabs and newlines, and the encoder
      percent-encodes them. */
  ghost predicate BreakFreeUrls(p: Platform) {
    && (forall t, b :: p.parseUrl(t, b).Some? ==> '\n' !in p.parseUrl(t, b).value && '\r' !in p.parseUrl(t, b).value)
    && (forall s :: '\n' !in p.encode(s) && '\r' !in p.encode(s))
  }

  /** Trimming never introduces a character. */
  lemma TrimKeepsOut(s: string, c: char)
    requires c !in s
    ensures c !in Trim(s)
  {
    TrimStripsSpace(s);
  }

  /** A rewritten line has a line break character only when the original had one. */
  lemma RewriteLineBreakFree(line: string, base: string, proxySegments: bool, p: Platform, c: char)
    requires BreakFreeUrls(p) && (c == '\n' || c == '\r') && c !in line
    ensures c !in RewriteLine(line, base, proxySegments, p)
  {
    var t := Trim(line);
    TrimKeepsOut(line, c);
    if t != "" && t[0] != '#' {
      var absolute := if HasSchemePrefix(t) then Some(t) else p.parseUrl(t, Some(base));
      if absolute.Some? && proxySegments {
        var a := absolute.value;
        var prefix := if Contains(Lower(a), ".m3u8") then "/_m3u?u=" else "/_segment?u=";
        assert ProxiedUrl(a, p) == prefix + p.encode(a);
        assert c !in prefix;
      }
    }
  }

  /** The rewritten playlist has exactly as many lines as the original. */
  lemma RewriteKeepsLineCount(text: string, base: string, proxySegments: bool, p: Platform)
    requires BreakFreeUrls(p)
    ensures |SplitLines(RewriteManifest(text, base, proxySegments, p))| == |SplitLines(text)|
  {
    var lines := SplitLines(text);
    var out := RewriteLines(lines, base, proxySegments, p);
    forall i | 0 <= i < |out|
      ensures '\n' !in out[i]
    {
      RewriteLineBreakFree(lines[i], base, proxySegments, p, '\n');
    }
    SplitJoinLineCount(out);
  }

  /** Without carriage returns, line `i` of the rewritten playlist is line
      `i` of the original, rewritten. */
  lemma RewriteIsLineByLine(text: string, base: string, proxySegments: bool, p: Platform)
    requires BreakFreeUrls(p) && '\r' !in text
    ensures var lines := SplitLines(text);
            var out := SplitLines(RewriteManifest(text, base, proxySegments, p));
            |out| == |lines|
            && forall i :: 0 <= i < |lines| ==> out[i] == RewriteLine(lines[i], base, proxySegments, p)
  {
    var lines := SplitLines(text);
    var out := RewriteLines(lines, base, proxySegments, p);
    JoinSplitLines(text);
    forall i | 0 <= i < |out|
      ensures '\n' !in out[i] && '\r' !in out[i]
    {
      CarriageReturnFreeLine(text, i);
      RewriteLineBreakFree(lines[i], base, proxySegments, p, '\n');
      RewriteLineBreakFree(lines[i], base, proxySegments, p, '\r');
    }
    SplitJoinLines(out);
  }

  /** A line of a text without carriage returns has none either. */
  lemma CarriageReturnFreeLine(text: string, i: nat)
    requires '\r' !in text && i < |SplitLines(text)|
    ensures '\r' !in SplitLines(text)[i]
  {
    SplitLinesKeepOut(text, '\r');
  }

  /** What the URL parser promises about the URLs it produces: a serialised
      URL is non-empty, starts with its scheme (so not with '#'), has no
      surrounding white space, and parses back to itself against any base. */
  ghost predicate SettledHrefs(p: Platform) {
    forall t, b :: p.parseUrl(t, b).Some? ==>
      var h := p.parseUrl(t, b).value;
      h != "" && h[0] != '#' && Trim(h) == h && p.parseUrl(h, b) == Some(h)
  }

  /** Without segment proxying, rewriting a rewritten line changes nothing. */
  lemma RewriteLineIdempotent(line: string, base: string, p: Platform)
    requires SettledHrefs(p)
    ensures var once := RewriteLine(line, base, false, p);
            RewriteLine(once, base, false, p) == once
  {
  }

  /** Without segment proxying, rewriting an already rewritten playlist
      changes nothing; a playlist with no carriage returns is meant. */
  lemma RewriteManifestIdempotent(text: string, base: string, p: Platform)
    requires BreakFreeUrls(p) && SettledHrefs(p) && '\r' !in text
    ensures var once := RewriteManifest(text, base, false, p);
            RewriteManifest(once, base, false, p) == once
  {
    var lines := SplitLines(text);
    var out := RewriteLines(lines, base, false, p);
    forall i | 0 <= i < |out|
      ensures '\n' !in out[i] && '\r' !in out[i]
    {
      CarriageReturnFreeLine(text, i);
      RewriteLineBreakFree(lines[i], base, false, p, '\n');
      RewriteLineBreakFree(lines[i], base, false, p, '\r');
    }
    SplitJoinLines(out);
    var again := RewriteLines(out, base, false, p);
    forall i | 0 <= i < |out|
      ensures again[i] == out[i]
    {
      RewriteLineIdempotent(lines[i], base, p);
    }
    assert again == out;
  }

  // ---------------------------------------------------------------------
  // proxyM3U8
  // ---------------------------------------------------------------------

  /** One request for the playlist: it threw, it answered with a non-2xx
      status, or it answered 2xx and reading its body gave `body` (None when
      reading threw). */
  datatype Attempt = Threw | NotOk | Ok(body: Option<string>)

  /** The answer the playlist is taken from. A non-2xx first answer is
      replaced by the retry's answer, unless the retry threw, which keeps the
      first one. A throw of the first request is not caught there. */
  function Upstream(primary: Attempt, retry: Attempt): (u: Completion<Attempt>)
    ensures u.Throw? <==> primary.Threw?
    ensures u.Normal? ==> (u.value.Ok? <==> primary.Ok? || retry.Ok?)
    ensures u.Normal? && u.value.Ok? ==> u.value == (if primary.Ok? then primary else retry)
  {
    match primary
    case Threw => Throw
    case Ok(_) => Normal(primary)
    case NotOk => if retry.Ok? then Normal(retry) else Normal(NotOk)
  }

  /** The reply when the playlist could not be fetched. */
  function FallbackReply(sourceUrl: string, setting: Option<string>): (r: Response)
    ensures r == Redirect(JString(sourceUrl)) <==> FallbackModeOf(setting) == RedirectToSource
    ensures r == Playlist(WrapperManifest(sourceUrl)) <==> FallbackModeOf(setting) == WrapSource
    ensures r == TextReply(502, "Bad gateway") <==> FallbackModeOf(setting) == Refuse
  {
    match FallbackModeOf(setting)
    case RedirectToSource => Redirect(JString(sourceUrl))
    case WrapSource => Playlist(WrapperManifest(sourceUrl))
    case Refuse => TextReply(502, "Bad gateway")
  }

  /** `proxyM3U8(req, res, sourceUrl)`. `primary` and `retry` are the outcomes
      the two requests would have; the retry is only made after a non-2xx
      first answer, and no request is made for an MP4 source. */
  function ProxyM3U8(sourceUrl: string, setting: Option<string>, proxySegments: bool,
                     primary: Attempt, retry: Attempt, p: Platform): (r: Response)
    // an MP4 source is wrapped, whatever the requests would have answered
    ensures IsMp4Source(sourceUrl) ==> r == Playlist(WrapperManifest(sourceUrl))
    // a throw of the first request ends in a 500
    ensures !IsMp4Source(sourceUrl) && primary.Threw? ==> r == TextReply(500, "internal error")
    // when neither request succeeded, the fallback mode decides
    ensures !IsMp4Source(sourceUrl) && primary.NotOk? && !retry.Ok? ==> r == FallbackReply(sourceUrl, setting)
    // a successful answer is rewritten against the source URL, unless its body
    // cannot be read or the source URL does not parse
    ensures !IsMp4Source(sourceUrl) && (primary.Ok? || (primary.NotOk? && retry.Ok?)) ==>
              var body := (if primary.Ok? then primary else retry).body;
              var base := p.parseUrl(sourceUrl, None);
              r == (if body.Some? && base.Some?
                    then Playlist(RewriteManifest(body.value, base.value, proxySegments, p))
                    else TextReply(500, "internal error"))
    // the only way to a 502 is a refused fallback mode after two failed requests
    ensures r == TextReply(502, "Bad gateway")
            <==> !IsMp4Source(sourceUrl) && primary.NotOk? && !retry.Ok? && FallbackModeOf(setting) == Refuse
  {
    if IsMp4Source(sourceUrl) then Playlist(WrapperManifest(sourceUrl))
    else
      match Upstream(primary, retry)
      case Throw => TextReply(500, "internal error")
      case Normal(answer) =>
        if !answer.Ok? then FallbackReply(sourceUrl, setting)
        else if answer.body.None? then TextReply(500, "internal error")
        else
          match p.parseUrl(sourceUrl, None)
          case None => TextReply(500, "internal error")
          case Some(base) => Playlist(RewriteManifest(answer.body.value, base, proxySegments, p))
  }
}
