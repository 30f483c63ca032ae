/**
  The rewriting of the MPEG-DASH manifest in `handleVideoReq` of index.js:
  every secure URL is routed through the proxy, the text is cut at the end
  of the first Period, and one text/vtt AdaptationSet per caption track is
  appended before the Period and the MPD are closed again.
*/
module Manifest {
  import opened Js
  import opened Text

  const Https := "https://"
  const PeriodEnd := "</Period>"
  const Closing := "</Period></MPD>"

  /** `${apiBase}/proxy?url=`, put in front of every secure URL of the manifest. */
  function ProxyPrefix(apiBase: string): string {
    apiBase + "/proxy?url="
  }

  /** `${apiBase}/api/captions?url=`, the captions resource a caption track is fetched through. */
  function CaptionPrefix(apiBase: string): string {
    apiBase + "/api/captions?url="
  }

  /** The pattern `/https:\/\//i` matches at position `i`: `https://` in any letter case. */
  predicate IsHttpsAt(s: string, i: int) {
    && 0 <= i && i + 8 <= |s|
    && LowerChar(s[i]) == 'h' && LowerChar(s[i + 1]) == 't' && LowerChar(s[i + 2]) == 't'
    && LowerChar(s[i + 3]) == 'p' && LowerChar(s[i + 4]) == 's'
    && s[i + 5] == ':' && s[i + 6] == '/' && s[i + 7] == '/'
  }

  predicate NoHttps(s: string) {
    forall i :: 0 <= i && i + 8 <= |s| ==> !IsHttpsAt(s, i)
  }

  /**
    `s.replace(/https:\/\//gi, proxy + "https://")`: one left-to-right pass;
    a match of any letter case becomes the lower-case scheme behind the
    proxy prefix, and the inserted text is not searched again. Its behaviour
    is stated by `RewriteWithoutScheme`, `RewriteAtScheme` and
    `RewriteProxiesEveryUrl`.
  */
  function RewriteHttps(s: string, proxy: string): string
    decreases |s|
  {
    if |s| < 8 then s
    else if IsHttpsAt(s, 0) then proxy + Https + RewriteHttps(s[8..], proxy)
    else [s[0]] + RewriteHttps(s[1..], proxy)
  }

  /** A text without the secure scheme passes through the rewriting unchanged. */
  lemma {:induction false} RewriteWithoutScheme(s: string, proxy: string)
    requires NoHttps(s)
    ensures RewriteHttps(s, proxy) == s
    decreases |s|
  {
    if |s| >= 8 {
      assert !IsHttpsAt(s, 0);
      NoHttpsTail(s);
      RewriteWithoutScheme(s[1..], proxy);
      assert [s[0]] + s[1..] == s;
    }
  }

  /** No match of the scheme starts inside `p` and runs on into a scheme that follows it. */
  lemma NoMatchAcrossBoundary(p: string, m: string, rest: string)
    requires NoHttps(p) && |m| == 8 && IsHttpsAt(m, 0)
    ensures forall i :: 0 <= i < |p| ==> !IsHttpsAt(p + m + rest, i)
  {
    var s := p + m + rest;
    forall i | 0 <= i < |p| ensures !IsHttpsAt(s, i) {
      if i + 8 <= |p| {
        assert s[i..i + 8] == p[i..i + 8];
        assert !IsHttpsAt(p, i);
      } else if i + 8 <= |s| {
        // the window holds the first letter of `m` at an offset where the scheme has no 'h'
        assert s[|p|] == m[0];
      }
    }
  }

  /**
    A scheme in any letter case that follows a scheme-free text is rewritten
    to the lower-case scheme behind the proxy prefix; the text before it is
    kept.
  */
  lemma {:induction false} RewriteAtScheme(p: string, m: string, rest: string, proxy: string)
    requires NoHttps(p) && |m| == 8 && IsHttpsAt(m, 0)
    ensures RewriteHttps(p + m + rest, proxy) == p + proxy + Https + RewriteHttps(rest, proxy)
    decreases |p|
  {
    if |p| == 0 {
      RewriteLeadingScheme(m, rest, proxy);
    } else {
      var s := p + m + rest;
      var tail := RewriteHttps(rest, proxy);
      NoMatchAcrossBoundary(p, m, rest);
      RewriteStep(s, proxy);
      assert s[1..] == p[1..] + m + rest;
      NoHttpsTail(p);
      RewriteAtScheme(p[1..], m, rest, proxy);
      calc {
        RewriteHttps(s, proxy);
        [s[0]] + RewriteHttps(s[1..], proxy);
        [p[0]] + (p[1..] + proxy + Https + tail);
        { assert [p[0]] + p[1..] == p; }
        p + proxy + Https + tail;
      }
    }
  }

  lemma RewriteStep(s: string, proxy: string)
    requires |s| >= 8 && !IsHttpsAt(s, 0)
    ensures RewriteHttps(s, proxy) == [s[0]] + RewriteHttps(s[1..], proxy)
  {
  }

  lemma RewriteLeadingScheme(m: string, rest: string, proxy: string)
    requires |m| == 8 && IsHttpsAt(m, 0)
    ensures RewriteHttps(m + rest, proxy) == proxy + Https + RewriteHttps(rest, proxy)
  {
  }

  lemma NoHttpsTail(p: string)
    requires |p| > 0
    ensures NoHttps(p) ==> NoHttps(p[1..])
  {
    if NoHttps(p) {
      forall i | 0 <= i && i + 8 <= |p[1..]| ensures !IsHttpsAt(p[1..], i) {
        assert p[1..][i..i + 8] == p[i + 1..i + 9];
        assert !IsHttpsAt(p, i + 1);
      }
    }
  }

  /**
    A manifest whose secure URLs are `https://` followed by scheme-free text
    comes out with every one of them behind the proxy and nothing else changed.
  */
  lemma {:induction false} RewriteProxiesEveryUrl(parts: seq<string>, proxy: string)
    requires |parts| >= 1
    requires forall k :: 0 <= k < |parts| ==> NoHttps(parts[k])
    ensures RewriteHttps(Join(parts, Https), proxy) == Join(parts, proxy + Https)
    decreases |parts|
  {
    if |parts| == 1 {
      RewriteWithoutScheme(parts[0], proxy);
    } else {
      RewriteProxiesEveryUrl(parts[1..], proxy);
      assert IsHttpsAt(Https, 0);
      RewriteAtScheme(parts[0], Https, Join(parts[1..], Https), proxy);
    }
  }

  predicate PeriodEndAt(s: string, i: int) {
    OccursAt(s, PeriodEnd, i)
  }

  predicate NoPeriodEnd(s: string) {
    forall i :: 0 <= i < |s| ==> !PeriodEndAt(s, i)
  }

  /** `s.split("</Period>")[0]`: the text before the first `</Period>`, or all of it. */
  function CutAtPeriodEnd(s: string): (r: string)
    ensures |r| <= |s| && r == s[..|r|]
    ensures NoPeriodEnd(r)
    ensures |r| < |s| <==> PeriodEndAt(s, |r|)
    decreases |s|
  {
    if |s| < 9 then s
    else if s[..9] == PeriodEnd then ""
    else
      var r := CutAtPeriodEnd(s[1..]);
      var out := [s[0]] + r;
      assert s[1..][..|r|] == s[1..|r| + 1];
      assert out == s[..|out|];
      assert NoPeriodEnd(out) by {
        forall i | 0 <= i && i + 9 <= |out| ensures !PeriodEndAt(out, i) {
          if i == 0 {
            assert out[..9] == s[..9];
          } else {
            assert out[i..i + 9] == r[i - 1..i + 8];
            assert !PeriodEndAt(r, i - 1);
          }
        }
      }
      assert s[1..][|r|..] == s[|out|..];
      out
  }

  /** An ampersand at position `i` opens the reference `&amp;`. */
  predicate AmpReferenceAt(s: string, i: int) {
    OccursAt(s, "&amp;", i)
  }

  /** Every ampersand of the text opens an `&amp;` reference. */
  predicate AmpsEscaped(r: string) {
    forall i :: 0 <= i < |r| && r[i] == '&' ==> AmpReferenceAt(r, i)
  }

  /** Putting `&amp;` or a character other than `&` in front of an escaped text keeps it escaped. */
  lemma AmpsEscapedCons(head: string, tail: string)
    requires head == "&amp;" || (|head| == 1 && head[0] != '&')
    requires AmpsEscaped(tail)
    ensures AmpsEscaped(head + tail)
  {
    var r := head + tail;
    forall i | 0 <= i < |r| && r[i] == '&' ensures AmpReferenceAt(r, i) {
      if i < |head| {
        assert head == "&amp;" && i == 0;
        assert r[..5] == head;
      } else {
        assert r[i] == tail[i - |head|];
        assert AmpReferenceAt(tail, i - |head|);
        assert r[i..i + 5] == tail[i - |head|..i - |head| + 5];
      }
    }
  }

  /** `s.replace(/&/gi, "&amp;")`: afterwards every ampersand opens `&amp;`, as XML text requires. */
  function EscapeAmp(s: string): (r: string)
    ensures AmpsEscaped(r)
    decreases |s|
  {
    if |s| == 0 then ""
    else
      var head := if s[0] == '&' then "&amp;" else [s[0]];
      var tail := EscapeAmp(s[1..]);
      AmpsEscapedCons(head, tail);
      head + tail
  }

  /** XML character-reference decoding of `&amp;`, the one reference `EscapeAmp` writes. */
  function UnescapeAmp(s: string): string
    decreases |s|
  {
    if |s| == 0 then ""
    else if |s| >= 5 && s[..5] == "&amp;" then "&" + UnescapeAmp(s[5..])
    else [s[0]] + UnescapeAmp(s[1..])
  }

  /** A reader of the manifest that decodes `&amp;` recovers the original caption URL. */
  lemma {:induction false} UnescapeEscapeAmp(s: string)
    ensures UnescapeAmp(EscapeAmp(s)) == s
    decreases |s|
  {
    if |s| > 0 {
      var e := EscapeAmp(s);
      UnescapeEscapeAmp(s[1..]);
      if s[0] == '&' {
        assert e == "&amp;" + EscapeAmp(s[1..]);
        assert e[..5] == "&amp;" && e[5..] == EscapeAmp(s[1..]);
      } else {
        assert e == [s[0]] + EscapeAmp(s[1..]);
        assert e[1..] == EscapeAmp(s[1..]);
      }
      assert s == [s[0]] + s[1..];
    }
  }

  const SetHead := "<AdaptationSet mimeType=\"text/vtt\" lang=\""
  const SetMid := "><Representation id=\"caption\" bandwidth=\"123\">"
  const SetTail := "</Representation></AdaptationSet>"

  /** The `BaseURL` element of a caption track: the captions resource, then the track URL with its ampersands escaped. */
  function BaseUrlElement(apiBase: string, url: string): string {
    "<BaseURL>" + CaptionPrefix(apiBase) + EscapeAmp(url) + "</BaseURL>"
  }

  /**
    The AdaptationSet that `getCaptions` writes for one caption track: a
    text/vtt set whose `lang` attribute is the language code and whose
    `BaseURL` leads to the track through the captions resource.
  */
  function CaptionSet(apiBase: string, lang: string, url: string): (r: string)
    ensures StartsWith(r, SetHead + lang + "\"")
    ensures OccursAt(r, BaseUrlElement(apiBase, url), |SetHead| + |lang| + 1 + |SetMid|)
    ensures OccursAt(r, SetMid, |SetHead| + |lang| + 1)
    ensures OccursAt(r, SetTail, |r| - |SetTail|)
    ensures |r| == |SetHead| + |lang| + 1 + |SetMid| + |BaseUrlElement(apiBase, url)| + |SetTail|
  {
    var open := SetHead + lang + "\"";
    var r := open + SetMid + BaseUrlElement(apiBase, url) + SetTail;
    assert r[..|open|] == open;
    assert r[|open|..|open| + |SetMid|] == SetMid;
    var at := |open| + |SetMid|;
    assert r[at..at + |BaseUrlElement(apiBase, url)|] == BaseUrlElement(apiBase, url);
    assert r[|r| - |SetTail|..] == SetTail;
    r
  }

  /**
    The text of one track's AdaptationSet: reading `caption.languageCode`
    throws for a `null` or `undefined` track, and `caption.baseUrl.replace`
    throws unless the URL is a string.
  */
  function TrackSet(apiBase: string, track: Value): (r: Attempt<string>)
    ensures r.Thrown? <==> Nullish(track) || !Prop(track, "baseUrl").value.Str?
    ensures r.Returned? ==>
              r.value == CaptionSet(apiBase, ToJsString(Prop(track, "languageCode").value), Prop(track, "baseUrl").value.s)
  {
    var lang := Prop(track, "languageCode");
    if lang.Thrown? then Thrown
    else
      var url := Prop(track, "baseUrl");
      if !url.value.Str? then Thrown
      else Returned(CaptionSet(apiBase, ToJsString(lang.value), url.value.s))
  }

  /** The pieces concatenated in order; the first exception ends the whole. */
  function ConcatAll(pieces: seq<Attempt<string>>): Attempt<string>
    decreases |pieces|
  {
    if |pieces| == 0 then Returned("")
    else
      var before := ConcatAll(pieces[..|pieces| - 1]);
      var last := pieces[|pieces| - 1];
      if before.Thrown? || last.Thrown? then Thrown
      else Returned(before.value + last.value)
  }

  lemma {:induction false} ConcatAllThrownIff(pieces: seq<Attempt<string>>)
    ensures ConcatAll(pieces).Thrown? <==> exists k :: 0 <= k < |pieces| && pieces[k].Thrown?
    decreases |pieces|
  {
    if |pieces| > 0 {
      var prefix := pieces[..|pieces| - 1];
      ConcatAllThrownIff(prefix);
      assert forall k :: 0 <= k < |prefix| ==> prefix[k] == pieces[k];
    }
  }

  lemma {:induction false} ConcatAllAppend(a: seq<Attempt<string>>, b: seq<Attempt<string>>)
    requires ConcatAll(a).Returned? && ConcatAll(b).Returned?
    ensures ConcatAll(a + b) == Returned(ConcatAll(a).value + ConcatAll(b).value)
    decreases |b|
  {
    if |b| == 0 {
      assert a + b == a;
      assert ConcatAll(a).value + "" == ConcatAll(a).value;
    } else {
      var b', x := b[..|b| - 1], b[|b| - 1];
      assert (a + b)[..|a + b| - 1] == a + b';
      assert (a + b)[|a + b| - 1] == x;
      ConcatAllAppend(a, b');
      var sa, sb', sx := ConcatAll(a).value, ConcatAll(b').value, x.value;
      assert (sa + sb') + sx == sa + (sb' + sx);
    }
  }

  /** The AdaptationSet text of each track, or the exception writing it throws. */
  function TrackSets(apiBase: string, tracks: seq<Value>): (r: seq<Attempt<string>>)
    ensures |r| == |tracks|
    ensures forall k :: 0 <= k < |tracks| ==> r[k] == TrackSet(apiBase, tracks[k])
  {
    seq(|tracks|, k requires 0 <= k < |tracks| => TrackSet(apiBase, tracks[k]))
  }

  /** The accumulated text of `getCaptions` over the tracks, in track order. */
  function CaptionSets(apiBase: string, tracks: seq<Value>): Attempt<string> {
    ConcatAll(TrackSets(apiBase, tracks))
  }

  /** The caption text fails exactly when one of the tracks cannot be written. */
  lemma CaptionSetsThrownIff(apiBase: string, tracks: seq<Value>)
    ensures CaptionSets(apiBase, tracks).Thrown? <==>
            exists k :: 0 <= k < |tracks| && TrackSet(apiBase, tracks[k]).Thrown?
  {
    ConcatAllThrownIff(TrackSets(apiBase, tracks));
  }

  lemma TrackSetsAppend(apiBase: string, a: seq<Value>, b: seq<Value>)
    ensures TrackSets(apiBase, a + b) == TrackSets(apiBase, a) + TrackSets(apiBase, b)
  {
    var joined, parts := TrackSets(apiBase, a + b), TrackSets(apiBase, a) + TrackSets(apiBase, b);
    forall k | 0 <= k < |joined| ensures joined[k] == parts[k] {
      if k < |a| {
        assert (a + b)[k] == a[k];
      } else {
        assert (a + b)[k] == b[k - |a|];
      }
    }
  }

  /** The caption text of two runs of tracks is the text of the first run followed by that of the second. */
  lemma CaptionSetsAppend(apiBase: string, a: seq<Value>, b: seq<Value>)
    requires CaptionSets(apiBase, a).Returned? && CaptionSets(apiBase, b).Returned?
    ensures CaptionSets(apiBase, a + b) ==
            Returned(CaptionSets(apiBase, a).value + CaptionSets(apiBase, b).value)
  {
    TrackSetsAppend(apiBase, a, b);
    ConcatAllAppend(TrackSets(apiBase, a), TrackSets(apiBase, b));
  }

  /** One more track appends its AdaptationSet to the caption text so far. */
  lemma CaptionSetsStep(apiBase: string, tracks: seq<Value>, i: nat)
    requires i < |tracks|
    requires CaptionSets(apiBase, tracks[..i]).Returned? && TrackSet(apiBase, tracks[i]).Returned?
    ensures CaptionSets(apiBase, tracks[..i + 1]) ==
            Returned(CaptionSets(apiBase, tracks[..i]).value + TrackSet(apiBase, tracks[i]).value)
  {
    var pieces := TrackSets(apiBase, tracks[..i + 1]);
    assert pieces[..i] == TrackSets(apiBase, tracks[..i]);
    assert pieces[i] == TrackSet(apiBase, tracks[i]);
  }

  /** `getCaptions(captions)`: the `forEach` loop that appends one AdaptationSet per track. */
  method GetCaptions(apiBase: string, tracks: seq<Value>) returns (r: Attempt<string>)
    ensures r == CaptionSets(apiBase, tracks)
  {
    var str := "";
    var i := 0;
    while i < |tracks|
      invariant 0 <= i <= |tracks|
      invariant CaptionSets(apiBase, tracks[..i]) == Returned(str)
    {
      var caption := tracks[i];
      var piece := TrackSet(apiBase, caption);
      if piece.Thrown? {
        CaptionSetsThrownIff(apiBase, tracks);
        return Thrown;
      }
      CaptionSetsStep(apiBase, tracks, i);
      str := str + piece.value;
      i := i + 1;
    }
    assert tracks[..i] == tracks;
    r := Returned(str);
  }

  /** `captions.playerCaptionsTracklistRenderer.captionTracks`; either read throws on `null` or `undefined`. */
  function CaptionTracks(captions: Value): (r: Attempt<Value>)
    ensures r.Thrown? <==> Nullish(captions) || Nullish(Prop(captions, "playerCaptionsTracklistRenderer").value)
    ensures r.Returned? ==>
              r.value == Prop(Prop(captions, "playerCaptionsTracklistRenderer").value, "captionTracks").value
  {
    var renderer := Prop(captions, "playerCaptionsTracklistRenderer");
    if renderer.Thrown? then Thrown else Prop(renderer.value, "captionTracks")
  }

  /**
    The caption text for the `captions` field of the player response: empty
    when it is falsy, otherwise the AdaptationSets of its caption tracks,
    which must be an array for `forEach` to exist.
  */
  function CaptionsText(apiBase: string, captions: Value): (r: Attempt<string>)
    ensures !Truthy(captions) ==> r == Returned("")
    ensures r.Thrown? <==>
              && Truthy(captions)
              && (|| CaptionTracks(captions).Thrown?
                  || !CaptionTracks(captions).value.Arr?
                  || exists k :: 0 <= k < |CaptionTracks(captions).value.items| &&
                                 TrackSet(apiBase, CaptionTracks(captions).value.items[k]).Thrown?)
    ensures Truthy(captions) && CaptionTracks(captions).Returned? && CaptionTracks(captions).value.Arr? ==>
              r == CaptionSets(apiBase, CaptionTracks(captions).value.items)
  {
    if !Truthy(captions) then Returned("")
    else
      var tracks := CaptionTracks(captions);
      if tracks.Thrown? || !tracks.value.Arr? then Thrown
      else
        CaptionSetsThrownIff(apiBase, tracks.value.items);
        CaptionSets(apiBase, tracks.value.items)
  }

  /**
    The manifest sent to the client: the generated one with its secure URLs
    proxied, cut before the first `</Period>`, then the caption sets, which
    are therefore not proxied, then `</Period></MPD>`.
  */
  function Manifest(apiBase: string, generated: string, captions: string): (m: string)
    ensures |m| >= |captions| + |Closing|
    ensures var body := m[..|m| - |captions| - |Closing|];
            var proxied := RewriteHttps(generated, ProxyPrefix(apiBase));
            && |body| <= |proxied| && body == proxied[..|body|]
            && NoPeriodEnd(body)
            && (|body| == |proxied| || PeriodEndAt(proxied, |body|))
    ensures m[|m| - |captions| - |Closing|..|m| - |Closing|] == captions
    ensures m[|m| - |Closing|..] == Closing
  {
    var dash := CutAtPeriodEnd(RewriteHttps(generated, ProxyPrefix(apiBase)));
    var m := dash + captions + Closing;
    assert m[..|dash|] == dash;
    m
  }
}
