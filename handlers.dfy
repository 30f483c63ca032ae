/**
  The per-type handlers of index.js. Each is a function from its inputs and
  the behaviour of the libraries to the envelope it resolves with, or to
  `Thrown` when it rejects; the handlers that update objects or variables
  step by step are also given as methods proved equal to those functions.
*/
module Handlers {
  import opened Js
  import opened Text
  import opened Envelopes
  import opened Services
  import opened Manifest
  import opened Trending

  /** An object whose properties `delete` removes in place. */
  class JsObject {
    var props: map<string, Value>

    constructor(fields: map<string, Value>)
      ensures props == fields
    {
      props := fields;
    }

    /** `delete obj[key]`: the property is gone, every other one is kept. */
    method Delete(key: string)
      modifies this
      ensures props == old(props) - {key}
    {
      props := props - {key};
    }
  }

  // ---------------------------------------------------------------- videos

  const NoVideoIdMessage := "No video id provided."
  const InvalidVideoSuffix := " is not a valid YouTube video ID."

  /** The keys `handleVideoReq` deletes from the info before sending it. */
  const StrippedKeys: set<string> := {"player_response", "response", "formats"}

  /** The `info` sent back: the own properties of the library's info without the stripped keys, plus the manifest. */
  function SentInfo(info: Value, dash: string): (r: map<string, Value>)
    ensures forall k :: k in r <==> k == "dash" || (k in OwnProps(info) && k !in StrippedKeys)
    ensures r["dash"] == Str(dash)
    ensures forall k :: k in r && k != "dash" ==> r[k] == OwnProps(info)[k]
  {
    (OwnProps(info) - StrippedKeys)["dash" := Str(dash)]
  }


  /**
    `generate_dash_file_from_formats(info.formats, info.videoDetails.lengthSeconds)`:
    either read throws on `null` or `undefined`, and the manifest must be a
    string for `replace` to exist.
  */
  function GeneratedDash(sv: Services, info: Value): (r: Attempt<string>)
    ensures r.Thrown? <==>
              || Nullish(info)
              || Nullish(Prop(info, "videoDetails").value)
              || var g := sv.call(DashFile(Prop(info, "formats").value, Prop(Prop(info, "videoDetails").value, "lengthSeconds").value));
                 g.Thrown? || !g.value.Str?
    ensures r.Returned? ==>
              sv.call(DashFile(Prop(info, "formats").value, Prop(Prop(info, "videoDetails").value, "lengthSeconds").value))
              == Returned(Str(r.value))
  {
    var formats := Prop(info, "formats");
    if formats.Thrown? then Thrown
    else
      var length := Prop(Prop(info, "videoDetails").value, "lengthSeconds");
      if length.Thrown? then Thrown
      else
        var generated := sv.call(DashFile(formats.value, length.value));
        if generated.Thrown? || !generated.value.Str? then Thrown
        else Returned(generated.value.s)
  }

  /** `info.player_response.captions`, which throws when the player response is `null` or `undefined`. */
  function PlayerCaptions(info: Value): (r: Attempt<Value>)
    ensures r.Thrown? <==> Nullish(info) || Nullish(Prop(info, "player_response").value)
    ensures r.Returned? ==> r.value == Prop(Prop(info, "player_response").value, "captions").value
  {
    var response := Prop(info, "player_response");
    if response.Thrown? then Thrown else Prop(response.value, "captions")
  }

  /**
    What happens once `getInfo` has resolved with `info`: a 200 whose info
    carries the generated manifest rewritten by `Manifest.Manifest` with the
    caption sets of the player response, or an exception when one of the
    reads, the generator or the caption tracks fails.
  */
  function VideoFromInfo(apiBase: string, sv: Services, id: string, info: Value): (r: Attempt<Envelope>)
    ensures r.Returned? <==>
              && GeneratedDash(sv, info).Returned?
              && PlayerCaptions(info).Returned?
              && CaptionsText(apiBase, PlayerCaptions(info).value).Returned?
    ensures r.Returned? ==>
              var dash := Manifest.Manifest(apiBase, GeneratedDash(sv, info).value,
                                            CaptionsText(apiBase, PlayerCaptions(info).value).value);
              r.value == Ok(Obj(map["videoId" := Str(id), "info" := Obj(SentInfo(info, dash))]))
    ensures r.Returned? ==> r.value.status == 200
    ensures Nullish(info) ==> r.Thrown?
  {
    var generated := GeneratedDash(sv, info);
    if generated.Thrown? then Thrown
    else
      var captions := PlayerCaptions(info);
      if captions.Thrown? then Thrown
      else
        var text := CaptionsText(apiBase, captions.value);
        if text.Thrown? then Thrown
        else
          var dash := Manifest.Manifest(apiBase, generated.value, text.value);
          Returned(Ok(Obj(map["videoId" := Str(id), "info" := Obj(SentInfo(info, dash))])))
  }

  /**
    `handleVideoReq(videoId)`: a missing or invalid id is a 400; otherwise the
    info from the library with the manifest rewritten for the proxy.
  */
  function VideoOutcome(apiBase: string, sv: Services, videoId: Option<string>): (r: Attempt<Envelope>)
    ensures r.Returned? ==> r.value.status in {200, 400}
    ensures (r.Returned? && r.value.status == 400) <==> !Present(videoId) || !sv.videoIdValid(videoId.value)
    ensures !Present(videoId) ==> r == Returned(BadRequest(ErrorBody(NoVideoIdMessage)))
    ensures Present(videoId) && !sv.videoIdValid(videoId.value) ==>
              r == Returned(BadRequest(ErrorBody(videoId.value + InvalidVideoSuffix)))
    ensures Present(videoId) && sv.videoIdValid(videoId.value) && sv.call(VideoInfo(videoId.value)).Returned? ==>
              r == VideoFromInfo(apiBase, sv, videoId.value, sv.call(VideoInfo(videoId.value)).value)
    ensures Present(videoId) && sv.videoIdValid(videoId.value) && sv.call(VideoInfo(videoId.value)).Thrown? ==> r.Thrown?
  {
    if !Present(videoId) then Returned(BadRequest(ErrorBody(NoVideoIdMessage)))
    else if !sv.videoIdValid(videoId.value) then
      Returned(BadRequest(ErrorBody(videoId.value + InvalidVideoSuffix)))
    else
      var info := sv.call(VideoInfo(videoId.value));
      if info.Thrown? then Thrown else VideoFromInfo(apiBase, sv, videoId.value, info.value)
  }

  /** The caption text, computed by the `getCaptions` loop when the captions are truthy. */
  method CaptionsOf(apiBase: string, captions: Value) returns (r: Attempt<string>)
    ensures r == CaptionsText(apiBase, captions)
  {
    if !Truthy(captions) {
      return Returned("");
    }
    var renderer := Prop(captions, "playerCaptionsTracklistRenderer");
    if renderer.Thrown? {
      return Thrown;
    }
    var tracks := Prop(renderer.value, "captionTracks");
    if tracks.Thrown? || !tracks.value.Arr? {
      return Thrown;
    }
    r := GetCaptions(apiBase, tracks.value.items);
  }

  /** The own properties left after deleting the stripped keys from the info object in place. */
  method StripInfo(info: Value) returns (rest: map<string, Value>)
    ensures rest == OwnProps(info) - StrippedKeys
  {
    rest := OwnProps(info);
    if info.Obj? {
      var obj := new JsObject(info.fields);
      obj.Delete("player_response");
      obj.Delete("response");
      obj.Delete("formats");
      rest := obj.props;
    }
  }

  /** `handleVideoReq`, with the manifest held in one variable that is rewritten step by step. */
  method HandleVideoReq(apiBase: string, sv: Services, videoId: Option<string>) returns (r: Attempt<Envelope>)
    ensures r == VideoOutcome(apiBase, sv, videoId)
  {
    if !Present(videoId) {
      return Returned(BadRequest(ErrorBody(NoVideoIdMessage)));
    }
    var id := videoId.value;
    if !sv.videoIdValid(id) {
      return Returned(BadRequest(ErrorBody(id + InvalidVideoSuffix)));
    }
    var got := sv.call(VideoInfo(id));
    if got.Thrown? {
      return Thrown;
    }
    var info := got.value;
    var formats := Prop(info, "formats");
    if formats.Thrown? {
      return Thrown;
    }
    var length := Prop(Prop(info, "videoDetails").value, "lengthSeconds");
    if length.Thrown? {
      return Thrown;
    }
    var generated := sv.call(DashFile(formats.value, length.value));
    if generated.Thrown? || !generated.value.Str? {
      return Thrown;
    }
    var dash := generated.value.s;
    var captions := Prop(Prop(info, "player_response").value, "captions");
    if captions.Thrown? {
      return Thrown;
    }
    var rest := StripInfo(info);
    dash := RewriteHttps(dash, ProxyPrefix(apiBase));
    dash := CutAtPeriodEnd(dash);
    var text := CaptionsOf(apiBase, captions.value);
    if text.Thrown? {
      return Thrown;
    }
    dash := dash + text.value;
    dash := dash + Closing;
    r := Returned(Ok(Obj(map["videoId" := Str(id), "info" := Obj(rest["dash" := Str(dash)])])));
  }

  // ---------------------------------------------------------------- search

  const EmptySearchMessage := "Empty search query."

  /**
    `handleSearchReq(q, next)`: a 400 when both are missing or empty;
    otherwise a continuation token wins over the query.
  */
  function HandleSearchReq(sv: Services, query: Option<string>, next: Option<string>): (r: Attempt<Envelope>)
    ensures r.Returned? ==> r.value.status in {200, 400}
    ensures (r.Returned? && r.value.status == 400) <==> !Present(query) && !Present(next)
    ensures !Present(query) && !Present(next) ==> r.value.data == ErrorBody(EmptySearchMessage)
    ensures Present(next) && sv.call(ParseJson(next.value)).Thrown? ==> r.Thrown?
    ensures Present(next) && sv.call(ParseJson(next.value)).Returned? ==>
              r == AsOk(sv.call(SearchMore(sv.call(ParseJson(next.value)).value)))
    ensures Present(query) && !Present(next) ==> r == AsOk(sv.call(Search(query.value, 1)))
  {
    if !Present(query) && !Present(next) then Returned(BadRequest(ErrorBody(EmptySearchMessage)))
    else if Present(next) then
      var token := sv.call(ParseJson(next.value));
      if token.Thrown? then Thrown else AsOk(sv.call(SearchMore(token.value)))
    else AsOk(sv.call(Search(query.value, 1)))
  }

  /** When a continuation token is given, the query plays no part. */
  lemma NextOverridesQuery(sv: Services, q1: Option<string>, q2: Option<string>, next: Option<string>)
    requires Present(next)
    ensures HandleSearchReq(sv, q1, next) == HandleSearchReq(sv, q2, next)
  {
  }

  // ---------------------------------------------------------------- trending

  /** The options of `handleTrendingReq`: `page` defaults to "default" only when the key is absent. */
  function TrendingCall(queries: map<string, string>): (c: Call)
    ensures c.Trending? && !c.parseCreatorOnRise
    ensures c.geoLocation == Lookup(queries, "geo")
    ensures "page" !in queries ==> c.page == "default"
    ensures "page" in queries ==> c.page == queries["page"]
  {
    Trending(Lookup(queries, "geo"), false, if "page" in queries then queries["page"] else "default")
  }

  /**
    `handleTrendingReq(opts)`: the scraped list with later videos of an
    already seen id dropped; `forEach` needs an array.
  */
  function TrendingOutcome(sv: Services, queries: map<string, string>): (r: Attempt<Envelope>)
    ensures r.Returned? ==> r.value.status == 200
    ensures r.Returned? <==>
              var scraped := sv.call(TrendingCall(queries));
              && scraped.Returned? && scraped.value.Arr?
              && forall i :: 0 <= i < |scraped.value.items| ==> !Nullish(scraped.value.items[i])
    ensures r.Returned? ==> var list := sv.call(TrendingCall(queries)).value.items;
                            r.value.data == Obj(map["trending" := Arr(FirstOccurrences(list))])
  {
    var scraped := sv.call(TrendingCall(queries));
    if scraped.Thrown? || !scraped.value.Arr? then Thrown
    else
      var data := DedupOutcome(scraped.value.items);
      if data.Thrown? then Thrown else Returned(Ok(Obj(map["trending" := Arr(data.value)])))
  }

  method HandleTrendingReq(sv: Services, queries: map<string, string>) returns (r: Attempt<Envelope>)
    ensures r == TrendingOutcome(sv, queries)
  {
    var trending := sv.call(TrendingCall(queries));
    if trending.Thrown? || !trending.value.Arr? {
      return Thrown;
    }
    var data := DedupByVideoId(trending.value.items);
    if data.Thrown? {
      return Thrown;
    }
    r := Returned(Ok(Obj(map["trending" := Arr(data.value)])));
  }

  // ---------------------------------------------------------------- channel

  const NoChannelIdMessage := "No channel id provided."

  /** The channel library call for a sub-type; a continuation token is used only by the three paged types. */
  function ChannelCall(config: ChannelConfig, typ: Option<string>, next: Option<string>): (c: Call)
    ensures (c.ChannelVideosMore? || c.ChannelPlaylistsMore? || (c.ChannelCommunityPosts? && c.arg.ByContinuation?))
            <==> Present(next) && typ in {Some("videos"), Some("playlists"), Some("community")}
    ensures c.ChannelInfo? <==> typ !in {Some("videos"), Some("playlists"), Some("community")}
    ensures c.ChannelInfo? || c.ChannelVideos? || c.ChannelPlaylistInfo? ==> c.config == config
    ensures c.ChannelCommunityPosts? && c.arg.ByConfig? ==> c.arg.config == config
    ensures typ == Some("videos") ==> c == if Present(next) then ChannelVideosMore(next.value) else ChannelVideos(config)
    ensures typ == Some("playlists") ==>
              c == if Present(next) then ChannelPlaylistsMore(next.value) else ChannelPlaylistInfo(config)
    ensures typ == Some("community") ==>
              c == ChannelCommunityPosts(if Present(next) then ByContinuation(next.value) else ByConfig(config))
  {
    if typ == Some("videos") then
      if Present(next) then ChannelVideosMore(next.value) else ChannelVideos(config)
    else if typ == Some("playlists") then
      if Present(next) then ChannelPlaylistsMore(next.value) else ChannelPlaylistInfo(config)
    else if typ == Some("community") then
      if Present(next) then ChannelCommunityPosts(ByContinuation(next.value))
      else ChannelCommunityPosts(ByConfig(config))
    else ChannelInfo(config)
  }

  /** `handleChannelReq(channelId, type, next, sortBy)`. */
  function HandleChannelReq(sv: Services, channelId: Option<string>, typ: Option<string>,
                            next: Option<string>, sortBy: Option<string>): (r: Attempt<Envelope>)
    ensures r.Returned? ==> r.value.status in {200, 400}
    ensures (r.Returned? && r.value.status == 400) <==> !Present(channelId)
    ensures !Present(channelId) ==> r.value.data == ErrorBody(NoChannelIdMessage)
    ensures Present(channelId) ==> r == AsOk(sv.call(ChannelCall(ChannelConfig(channelId.value, 0, sortBy), typ, next)))
  {
    if !Present(channelId) then Returned(BadRequest(ErrorBody(NoChannelIdMessage)))
    else AsOk(sv.call(ChannelCall(ChannelConfig(channelId.value, 0, sortBy), typ, next)))
  }

  // ---------------------------------------------------------------- comments

  /** The payload of `handleCommentsReq`: the id is passed on without any check. */
  function CommentsCall(videoId: Option<string>, next: Option<string>): (c: Call)
    ensures c.Comments? && c.commentsVideoId == videoId && c.commentsContinuation == next
    ensures !c.sortByNewest && !c.mustSetCookie
  {
    Comments(videoId, false, next, false)
  }

  function HandleCommentsReq(sv: Services, videoId: Option<string>, next: Option<string>): (r: Attempt<Envelope>)
    ensures r.Returned? ==> r.value.status == 200
    ensures r.Thrown? <==> sv.call(CommentsCall(videoId, next)).Thrown?
    ensures r.Returned? ==> r.value.data == sv.call(CommentsCall(videoId, next)).value
  {
    AsOk(sv.call(CommentsCall(videoId, next)))
  }

  // ---------------------------------------------------------------- captions

  /** The URL the captions handler fetches: the href with the first `${apiBase}/api/captions?url=` removed. */
  function CaptionTarget(apiBase: string, href: string): (t: string)
    ensures StartsWith(href, CaptionPrefix(apiBase)) ==> t == href[|CaptionPrefix(apiBase)|..]
    ensures IndexOf(href, CaptionPrefix(apiBase)) < 0 ==> t == href
    ensures var prefix := CaptionPrefix(apiBase);
            forall i :: OccursAt(href, prefix, i) && (forall j :: 0 <= j < i ==> !OccursAt(href, prefix, j)) ==>
                        t == href[..i] + href[i + |prefix|..]
  {
    ReplaceFirst(href, CaptionPrefix(apiBase), "")
  }

  /** `handleCaptionsReq(url)`: fetch the XML track and convert it to WebVTT. */
  function HandleCaptionsReq(apiBase: string, sv: Services, href: string): (r: Attempt<Envelope>)
    ensures r.Returned? ==> r.value.status == 200
    ensures sv.httpsGet(CaptionTarget(apiBase, href)).Thrown? ==> r.Thrown?
    ensures sv.httpsGet(CaptionTarget(apiBase, href)).Returned? ==>
              r == AsOk(sv.call(XmlToVtt(sv.httpsGet(CaptionTarget(apiBase, href)).value)))
  {
    var xml := sv.httpsGet(CaptionTarget(apiBase, href));
    if xml.Thrown? then Thrown else AsOk(sv.call(XmlToVtt(xml.value)))
  }

  /**
    A caption link written into the manifest leads back to its track: once
    the client has decoded `&amp;` in the BaseURL, the captions resource
    fetches exactly the track's own URL.
  */
  lemma CaptionLinkFetchesTrack(apiBase: string, sv: Services, trackUrl: string)
    ensures var href := CaptionPrefix(apiBase) + UnescapeAmp(EscapeAmp(trackUrl));
            CaptionTarget(apiBase, href) == trackUrl
  {
    UnescapeEscapeAmp(trackUrl);
    var href := CaptionPrefix(apiBase) + trackUrl;
    assert href[..|CaptionPrefix(apiBase)|] == CaptionPrefix(apiBase);
    assert href[|CaptionPrefix(apiBase)|..] == trackUrl;
  }

  // ---------------------------------------------------------------- playlist

  const InvalidPlaylistSuffix := " is not a valid playlist ID."

  /**
    `parser(data)`: destructuring throws for `null` or `undefined`; the
    continuation and the items are lifted out and deleted from the data,
    which becomes the info.
  */
  function PlaylistParts(data: Value): (r: Attempt<Value>)
    ensures r.Thrown? <==> Nullish(data)
    ensures r.Returned? ==> r.value.Obj? && r.value.fields.Keys == {"continuation", "info", "items"}
    ensures r.Returned? ==> r.value.fields["continuation"] == Prop(data, "continuation").value
    ensures r.Returned? ==> r.value.fields["items"] == Prop(data, "items").value
    ensures r.Returned? && data.Obj? ==>
              r.value.fields["info"].Obj? && r.value.fields["info"].fields == data.fields - {"continuation", "items"}
    ensures r.Returned? && !data.Obj? ==> r.value.fields["info"] == data
  {
    var continuation := Prop(data, "continuation");
    var items := Prop(data, "items");
    if continuation.Thrown? then Thrown
    else
      var info := if data.Obj? then Obj(data.fields - {"continuation", "items"}) else data;
      Returned(Obj(map["continuation" := continuation.value, "info" := info, "items" := items.value]))
  }

  /** The info and the two lifted fields together hold exactly the fields of the library's object. */
  lemma PlaylistPartsRejoin(data: Value)
    requires data.Obj?
    ensures var parts := PlaylistParts(data).value.fields;
            var rejoined := parts["info"].fields
              + (if "continuation" in data.fields then map["continuation" := parts["continuation"]] else map[])
              + (if "items" in data.fields then map["items" := parts["items"]] else map[]);
            rejoined == data.fields
  {
  }

  /** `parser` with its two `delete` statements on the object in place. */
  method Parser(data: Value) returns (r: Attempt<Value>)
    ensures r == PlaylistParts(data)
  {
    var continuation := Prop(data, "continuation");
    var items := Prop(data, "items");
    if continuation.Thrown? {
      return Thrown;
    }
    var info := data;
    if data.Obj? {
      var obj := new JsObject(data.fields);
      obj.Delete("continuation");
      obj.Delete("items");
      assert obj.props == data.fields - {"continuation", "items"};
      info := Obj(obj.props);
    }
    r := Returned(Obj(map["continuation" := continuation.value, "info" := info, "items" := items.value]));
  }

  /** `parser` applied to a library result, sent back as `_200`. */
  function PlaylistReply(data: Attempt<Value>): (r: Attempt<Envelope>)
    ensures r.Returned? <==> data.Returned? && !Nullish(data.value)
    ensures r.Returned? ==> r.value.status == 200 && data.Returned? && PlaylistParts(data.value).Returned?
    ensures r.Returned? ==> r.value.data == PlaylistParts(data.value).value
  {
    if data.Thrown? then Thrown
    else
      var parts := PlaylistParts(data.value);
      if parts.Thrown? then Thrown else Returned(Ok(parts.value))
  }

  /**
    `handlePlaylistReq(id, next)`: a continuation token skips the id check;
    otherwise an id the library rejects is a 400.
  */
  function PlaylistOutcome(sv: Services, id: Option<string>, next: Option<string>): (r: Attempt<Envelope>)
    ensures r.Returned? ==> r.value.status in {200, 400}
    ensures (r.Returned? && r.value.status == 400) <==> !Present(next) && !sv.playlistIdValid(id)
    ensures !Present(next) && !sv.playlistIdValid(id) ==>
              r.value.data == ErrorBody(OptionText(id) + InvalidPlaylistSuffix)
    ensures Present(next) && sv.call(ParseJson(next.value)).Thrown? ==> r.Thrown?
    ensures Present(next) && sv.call(ParseJson(next.value)).Returned? ==>
              r == PlaylistReply(sv.call(PlaylistMore(sv.call(ParseJson(next.value)).value)))
    ensures !Present(next) && sv.playlistIdValid(id) ==> r == PlaylistReply(sv.call(Playlist(id, 1)))
  {
    if Present(next) then
      var token := sv.call(ParseJson(next.value));
      if token.Thrown? then Thrown else PlaylistReply(sv.call(PlaylistMore(token.value)))
    else if !sv.playlistIdValid(id) then
      Returned(BadRequest(ErrorBody(OptionText(id) + InvalidPlaylistSuffix)))
    else PlaylistReply(sv.call(Playlist(id, 1)))
  }

  method HandlePlaylistReq(sv: Services, id: Option<string>, next: Option<string>) returns (r: Attempt<Envelope>)
    ensures r == PlaylistOutcome(sv, id, next)
  {
    var data: Attempt<Value>;
    if Present(next) {
      var token := sv.call(ParseJson(next.value));
      if token.Thrown? {
        return Thrown;
      }
      data := sv.call(PlaylistMore(token.value));
    } else {
      if !sv.playlistIdValid(id) {
        return Returned(BadRequest(ErrorBody(OptionText(id) + InvalidPlaylistSuffix)));
      }
      data := sv.call(Playlist(id, 1));
    }
    if data.Thrown? {
      return Thrown;
    }
    var parts := Parser(data.value);
    if parts.Thrown? {
      return Thrown;
    }
    r := Returned(Ok(parts.value));
  }
}
