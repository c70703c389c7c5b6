/**
 The channel resolvers of src/server.js: the channel-number lookup of the
 `/rz/ch_no` route, `findBdixChannelByNumber`, and `findStreamByXuiId`, the
 line scan over the nvision M3U text.
 */
module Catalog {
  import opened Wrappers
  import opened Text
  import opened Js

  // ---------------------------------------------------------------------
  // Array.prototype.find with a test that may throw
  // ---------------------------------------------------------------------

  /** Every element in `es[from..to]` fails the test without throwing. */
  ghost predicate AllFail(es: seq<Value>, test: Value -> Completion<bool>, from: int, to: int)
    requires 0 <= from <= to <= |es|
  {
    forall j :: from <= j < to ==> test(es[j]) == Normal(false)
  }

  /** `es.find(test)` scanning from index `i`, reporting the index found. The
      scan stops at the first element that passes or whose test throws. */
  function FindFrom(es: seq<Value>, test: Value -> Completion<bool>, i: nat): (r: Completion<Option<nat>>)
    requires i <= |es|
    ensures r.Normal? && r.value.Some? ==>
              i <= r.value.value < |es| && test(es[r.value.value]) == Normal(true)
              && AllFail(es, test, i, r.value.value)
    ensures r == Normal(None) <==> AllFail(es, test, i, |es|)
    ensures r.Throw? ==> exists k :: i <= k < |es| && test(es[k]).Throw? && AllFail(es, test, i, k)
    decreases |es| - i
  {
    if i == |es| then Normal(None)
    else
      match test(es[i])
      case Throw => Throw
      case Normal(true) => Normal(Some(i))
      case Normal(false) => FindFrom(es, test, i + 1)
  }

  // ---------------------------------------------------------------------
  // /rz/ch_no: channel by number in the uncached playlist
  // ---------------------------------------------------------------------

  /** `Array.isArray(playlist.channels) ? playlist.channels : []`; reading
      `channels` of a null playlist throws. */
  function PlaylistChannels(playlist: Value): (r: Completion<seq<Value>>)
    ensures r.Throw? <==> playlist.JNull? || playlist.JUndefined?
    ensures r.Normal? && r.value != [] ==> Field(playlist, Channels) == JArray(r.value)
    ensures r.Normal? && Field(playlist, Channels).JArray? ==> r.value == Field(playlist, Channels).elems
  {
    match Get(playlist, Channels)
    case Throw => Throw
    case Normal(cs) => Normal(if cs.JArray? then cs.elems else [])
  }

  /** `Number(c.channel_number) === chnum`. */
  function ChannelNumberIs(c: Value, chnum: real, p: Platform): Completion<bool> {
    match Get(c, ChannelNumber)
    case Throw => Throw
    case Normal(x) =>
      match ToNumber(x, p)
      case Throw => Throw
      case Normal(n) => Normal(n == Some(chnum))
  }

  /** The result of a lookup: the entry found, none, or an exception. */
  datatype Lookup = Found(entry: Value) | Missing | Failed

  /** `channels.find(c => Number(c.channel_number) === chnum)`. */
  function FindChannelByNumber(channels: seq<Value>, chnum: real, p: Platform): (r: Lookup)
    ensures r.Found? ==> exists i :: 0 <= i < |channels| && channels[i] == r.entry
                                    && ChannelNumberIs(channels[i], chnum, p) == Normal(true)
                                    && forall j :: 0 <= j < i ==> ChannelNumberIs(channels[j], chnum, p) == Normal(false)
    ensures r.Missing? <==> forall j :: 0 <= j < |channels| ==> ChannelNumberIs(channels[j], chnum, p) == Normal(false)
    ensures r.Failed? ==> exists k :: 0 <= k < |channels| && ChannelNumberIs(channels[k], chnum, p).Throw?
                                    && forall j :: 0 <= j < k ==> ChannelNumberIs(channels[j], chnum, p) == Normal(false)
  {
    var test := c => ChannelNumberIs(c, chnum, p);
    match FindFrom(channels, test, 0)
    case Throw => Failed
    case Normal(None) => Missing
    case Normal(Some(i)) => Found(channels[i])
  }

  // ---------------------------------------------------------------------
  // /bdix: findBdixChannelByNumber
  // ---------------------------------------------------------------------

  /** `String(ch.number) === numStr`. */
  function BdixNumberIs(ch: Value, numStr: string, p: Platform): Completion<bool> {
    match Get(ch, Number)
    case Throw => Throw
    case Normal(x) =>
      match ToJsString(x, p)
      case Throw => Throw
      case Normal(s) => Normal(s == numStr)
  }

  /** `findBdixChannelByNumber(bdixData, number)`: no result when the data is
      falsy or its `channels` is not an array; otherwise the first channel
      whose number reads as `String(number)`. Missing stands for both `null`
      and `undefined`, which the caller treats alike. */
  function FindBdixChannelByNumber(data: Value, number: real, p: Platform): (r: Lookup)
    ensures !Truthy(data) ==> r.Missing?
    ensures Truthy(data) && !Field(data, Channels).JArray? ==> r.Missing?
    ensures r.Found? ==> Truthy(data) && Field(data, Channels).JArray?
                         && var cs := Field(data, Channels).elems;
                            exists i :: 0 <= i < |cs| && cs[i] == r.entry
                                        && BdixNumberIs(cs[i], p.numeral(number), p) == Normal(true)
                                        && forall j :: 0 <= j < i ==> BdixNumberIs(cs[j], p.numeral(number), p) == Normal(false)
    ensures Truthy(data) && Field(data, Channels).JArray? ==>
              var cs := Field(data, Channels).elems;
              (r.Missing? <==> forall j :: 0 <= j < |cs| ==> BdixNumberIs(cs[j], p.numeral(number), p) == Normal(false))
    ensures r.Failed? ==> Truthy(data) && Field(data, Channels).JArray?
                          && var cs := Field(data, Channels).elems;
                             exists k :: 0 <= k < |cs| && BdixNumberIs(cs[k], p.numeral(number), p).Throw?
                                         && forall j :: 0 <= j < k ==> BdixNumberIs(cs[j], p.numeral(number), p) == Normal(false)
  {
    if !Truthy(data) then Missing
    else
      var channels := Field(data, Channels);
      if !channels.JArray? then Missing
      else
        var numStr := p.numeral(number);
        var test := ch => BdixNumberIs(ch, numStr, p);
        match FindFrom(channels.elems, test, 0)
        case Throw => Failed
        case Normal(None) => Missing
        case Normal(Some(i)) => Found(channels.elems[i])
  }

  // ---------------------------------------------------------------------
  // /nvision: findStreamByXuiId
  // ---------------------------------------------------------------------

  /** The literal part of /xui-id="([^"]+)"/ before the captured value. */
  const AttributeOpen: string := "xui-id=\""

  /** Length of the run of non-quote characters of `s` starting at `i`. */
  function QuoteFreeRun(s: string, i: nat): (n: nat)
    requires i <= |s|
    ensures i + n <= |s|
    ensures forall k :: i <= k < i + n ==> s[k] != '"'
    ensures i + n == |s| || s[i + n] == '"'
    decreases |s| - i
  {
    if i == |s| || s[i] == '"' then 0 else 1 + QuoteFreeRun(s, i + 1)
  }

  /** The pattern /xui-id="([^"]+)"/i matches at position `k`: the opening
      text in any ASCII letter case (a non-Unicode /i never folds a non-ASCII
      character onto an ASCII one), then a non-empty run of non-quote
      characters, then a quote. */
  predicate AttributeAt(line: string, k: nat) {
    && k + |AttributeOpen| <= |line|
    && Lower(line[k..k + |AttributeOpen|]) == AttributeOpen
    && var n := QuoteFreeRun(line, k + |AttributeOpen|);
       n > 0 && k + |AttributeOpen| + n < |line|
  }

  /** The captured value of a match at `k`. */
  function AttributeValueAt(line: string, k: nat): string
    requires AttributeAt(line, k)
  {
    var start := k + |AttributeOpen|;
    line[start..start + QuoteFreeRun(line, start)]
  }

  /** Position of the leftmost match at or after position `k`. */
  function LeftmostMatchFrom(line: string, k: nat): (r: Option<nat>)
    requires k <= |line|
    ensures r.Some? ==> k <= r.value <= |line| && AttributeAt(line, r.value)
    decreases |line| - k
  {
    if AttributeAt(line, k) then Some(k)
    else if k == |line| then None
    else LeftmostMatchFrom(line, k + 1)
  }

  /** The scan reports the leftmost match, and reports none only when there is none. */
  lemma {:induction false} LeftmostMatchIsLeftmost(line: string, k: nat)
    requires k <= |line|
    ensures var r := LeftmostMatchFrom(line, k);
            && (r.Some? ==> forall m :: k <= m < r.value ==> !AttributeAt(line, m))
            && (r.None? ==> forall m :: k <= m <= |line| ==> !AttributeAt(line, m))
    decreases |line| - k
  {
    if AttributeAt(line, k) {
      assert LeftmostMatchFrom(line, k) == Some(k);
    } else if k == |line| {
      assert LeftmostMatchFrom(line, k) == None;
    } else {
      var r := LeftmostMatchFrom(line, k + 1);
      assert LeftmostMatchFrom(line, k) == r;
      LeftmostMatchIsLeftmost(line, k + 1);
      var end := if r.Some? then r.value else |line| + 1;
      assert forall m :: k + 1 <= m < end ==> !AttributeAt(line, m);
      assert forall m :: k <= m < end ==> !AttributeAt(line, m) by {
        forall m | k <= m < end
          ensures !AttributeAt(line, m)
        {
          if m > k {
            assert k + 1 <= m < end;
          }
        }
      }
    }
  }

  /** `match[1]` of `/xui-id="([^"]+)"/i.exec(line)`: the capture of the
      leftmost match (see `LeftmostMatchIsLeftmost`), a non-empty value
      without quotes. */
  function XuiAttribute(line: string): (r: Option<string>)
    ensures r.Some? ==> r.value != "" && '"' !in r.value
  {
    match LeftmostMatchFrom(line, 0)
    case None => None
    case Some(m) => Some(AttributeValueAt(line, m))
  }

  /** A line whose first `xui-id` value is exactly `id`. */
  predicate IsTagFor(line: string, id: string) {
    XuiAttribute(line) == Some(id)
  }

  /** A line that, trimmed, is non-empty and not a comment. */
  predicate IsContent(line: string) {
    var t := Trim(line);
    t != "" && t[0] != '#'
  }

  /** Index of the first tag line for `id` at or after `i`. */
  function FirstTagFrom(lines: seq<string>, id: string, i: nat): (r: Option<nat>)
    requires i <= |lines|
    ensures r.Some? ==> i <= r.value < |lines| && IsTagFor(lines[r.value], id)
                        && forall j :: i <= j < r.value ==> !IsTagFor(lines[j], id)
    ensures r.None? ==> forall j :: i <= j < |lines| ==> !IsTagFor(lines[j], id)
    decreases |lines| - i
  {
    if i == |lines| then None
    else if IsTagFor(lines[i], id) then Some(i)
    else FirstTagFrom(lines, id, i + 1)
  }

  /** Index of the first content line at or after `i`. */
  function FirstContentFrom(lines: seq<string>, i: nat): (r: Option<nat>)
    requires i <= |lines|
    ensures r.Some? ==> i <= r.value < |lines| && IsContent(lines[r.value])
                        && forall j :: i <= j < r.value ==> !IsContent(lines[j])
    ensures r.None? ==> forall j :: i <= j < |lines| ==> !IsContent(lines[j])
    decreases |lines| - i
  {
    if i == |lines| then None
    else if IsContent(lines[i]) then Some(i)
    else FirstContentFrom(lines, i + 1)
  }

  /** Reference reading of the xui-id lookup: the trimmed first content line
      after the first tag line for `id` (`StreamIsAfterFirstTag` and
      `NoStreamMeansNoContentAfterTags` characterise it line by line). */
  function StreamForXuiId(text: string, id: string): (r: Option<string>)
    ensures text == "" || id == "" ==> r.None?
    ensures r.Some? ==> r.value != "" && r.value[0] != '#'
                        && !IsSpace(r.value[0]) && !IsSpace(r.value[|r.value| - 1])
  {
    if text == "" || id == "" then None
    else
      var lines := SplitLines(text);
      match FirstTagFrom(lines, id, 0)
      case None => None
      case Some(i) =>
        match FirstContentFrom(lines, i + 1)
        case None => None
        case Some(j) => Some(Trim(lines[j]))
  }

  /** Line `i` is the first tag line for `id` and line `j` the first content line after it. */
  ghost predicate StreamLines(lines: seq<string>, id: string, i: int, j: int) {
    && 0 <= i < j < |lines|
    && IsTagFor(lines[i], id) && (forall k :: 0 <= k < i ==> !IsTagFor(lines[k], id))
    && IsContent(lines[j]) && (forall k :: i < k < j ==> !IsContent(lines[k]))
  }

  /** A found stream is the trimmed first content line after the first tag line. */
  lemma StreamIsAfterFirstTag(text: string, id: string)
    requires StreamForXuiId(text, id).Some?
    ensures exists i, j :: StreamLines(SplitLines(text), id, i, j)
                           && StreamForXuiId(text, id).value == Trim(SplitLines(text)[j])
  {
    var lines := SplitLines(text);
    var i := FirstTagFrom(lines, id, 0).value;
    var j := FirstContentFrom(lines, i + 1).value;
    assert StreamLines(lines, id, i, j);
  }

  /** Nothing is found only when no tag line for `id` has a content line after it. */
  lemma NoStreamMeansNoContentAfterTags(text: string, id: string)
    requires text != "" && id != "" && StreamForXuiId(text, id).None?
    ensures var lines := SplitLines(text);
            forall i, j :: 0 <= i < j < |lines| && IsTagFor(lines[i], id) ==> !IsContent(lines[j])
  {
  }

  /** No tag line for `id` before index `i` is followed by a content line. */
  ghost predicate NoStreamAfterTagsBefore(lines: seq<string>, id: string, i: int)
    requires 0 <= i <= |lines|
  {
    forall k :: 0 <= k < i && IsTagFor(lines[k], id) ==> FirstContentFrom(lines, k + 1).None?
  }

  /** `findStreamByXuiId(m3uText, xuiId)` as the source writes it: for each
      tag line for `id`, scan forward for a content line; when a tag line has
      none, go on with the outer scan. */
  method FindStreamByXuiId(text: string, id: string) returns (r: Option<string>)
    ensures r == StreamForXuiId(text, id)
  {
    if text == "" || id == "" {
      return None;
    }
    var lines := SplitLines(text);
    var i := 0;
    while i < |lines|
      invariant 0 <= i <= |lines|
      invariant NoStreamAfterTagsBefore(lines, id, i)
    {
      if XuiAttribute(lines[i]) == Some(id) {
        var found := ScanForContent(lines, i + 1);
        if found.Some? {
          FirstTagIs(lines, id, i);
          StreamIsFirstContentAfterFirstTag(text, id, i, found.value);
          return Some(Trim(lines[found.value]));
        }
      }
      NoStreamExtends(lines, id, i);
      i := i + 1;
    }
    NoStreamAtAll(text, id);
    return None;
  }

  /** The inner loop of `findStreamByXuiId`: the first line from `from` on
      whose trimmed text is non-empty and does not start with '#'. */
  method ScanForContent(lines: seq<string>, from: nat) returns (r: Option<nat>)
    requires from <= |lines|
    ensures r == FirstContentFrom(lines, from)
  {
    var j := from;
    while j < |lines|
      invariant from <= j <= |lines|
      invariant forall m :: from <= m < j ==> !IsContent(lines[m])
    {
      var candidate := Trim(lines[j]);
      if candidate != "" && candidate[0] != '#' {
        FirstContentIs(lines, from, j);
        return Some(j);
      }
      j := j + 1;
    }
    NoContentFrom(lines, from);
    return None;
  }

  /** Extends the outer loop's invariant past line `i`. */
  lemma NoStreamExtends(lines: seq<string>, id: string, i: nat)
    requires i < |lines| && NoStreamAfterTagsBefore(lines, id, i)
    requires IsTagFor(lines[i], id) ==> FirstContentFrom(lines, i + 1).None?
    ensures NoStreamAfterTagsBefore(lines, id, i + 1)
  {
  }

  /** No content line from `from` on: the forward scan finds nothing. */
  lemma NoContentFrom(lines: seq<string>, from: nat)
    requires from <= |lines|
    requires forall m :: from <= m < |lines| ==> !IsContent(lines[m])
    ensures FirstContentFrom(lines, from).None?
  {
  }

  /** A content line at `j` with none between `from` and `j` is the first one. */
  lemma FirstContentIs(lines: seq<string>, from: nat, j: nat)
    requires from <= j < |lines| && IsContent(lines[j])
    requires forall m :: from <= m < j ==> !IsContent(lines[m])
    ensures FirstContentFrom(lines, from) == Some(j)
  {
  }

  /** A tag line at `i`, when no tag line before it has a content line after
      it, is the first tag line if a content line follows it. */
  lemma FirstTagIs(lines: seq<string>, id: string, i: nat)
    requires i < |lines| && IsTagFor(lines[i], id)
    requires NoStreamAfterTagsBefore(lines, id, i)
    requires FirstContentFrom(lines, i + 1).Some?
    ensures FirstTagFrom(lines, id, 0) == Some(i)
  {
  }

  /** When no tag line has a content line after it, the lookup finds nothing. */
  lemma NoStreamAtAll(text: string, id: string)
    requires text != "" && id != ""
    requires NoStreamAfterTagsBefore(SplitLines(text), id, |SplitLines(text)|)
    ensures StreamForXuiId(text, id).None?
  {
  }

  /** The first content line after the first tag line is the lookup's result. */
  lemma StreamIsFirstContentAfterFirstTag(text: string, id: string, i: nat, j: nat)
    requires text != "" && id != ""
    requires i < |SplitLines(text)|
    requires FirstTagFrom(SplitLines(text), id, 0) == Some(i)
    requires FirstContentFrom(SplitLines(text), i + 1) == Some(j)
    ensures StreamForXuiId(text, id) == Some(Trim(SplitLines(text)[j]))
  {
  }

  /** A tag line with nothing after it resolves to nothing. */
  lemma TagOnLastLine(text: string, id: string)
    requires var lines := SplitLines(text);
             IsTagFor(lines[|lines| - 1], id)
             && forall k :: 0 <= k < |lines| - 1 ==> !IsTagFor(lines[k], id)
    ensures StreamForXuiId(text, id).None?
  {
  }
}
