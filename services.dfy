/**
  The external libraries the request layer calls, seen only through their
  call contracts: which call is made with which arguments, and whether it
  returns a value or throws. Their behaviour is a parameter of the model.
*/
module Services {
  import opened Js

  /** The `config` object handed to the channel library; `httpsAgent` is always `null`. */
  datatype ChannelConfig = ChannelConfig(channelId: string, channelIdType: int, sortBy: Option<string>)

  /** The argument of `getChannelCommunityPosts`, which serves both the first page and the next ones. */
  datatype CommunityArg = ByContinuation(continuation: string) | ByConfig(config: ChannelConfig)

  /** One call into an external library, with its arguments. */
  datatype Call =
    | VideoInfo(videoId: string)                                   // ytdl.getInfo
    | DashFile(formats: Value, lengthSeconds: Value)               // generate_dash_file_from_formats
    | ParseJson(text: string)                                      // JSON.parse
    | Search(query: string, pages: int)                            // ytsr(query, { pages })
    | SearchMore(token: Value)                                     // ytsr.continueReq
    | Trending(geoLocation: Option<string>, parseCreatorOnRise: bool, page: string)
    | ChannelVideos(config: ChannelConfig)
    | ChannelVideosMore(continuation: string)
    | ChannelPlaylistInfo(config: ChannelConfig)
    | ChannelPlaylistsMore(continuation: string)
    | ChannelCommunityPosts(arg: CommunityArg)
    | ChannelInfo(config: ChannelConfig)
    | Comments(commentsVideoId: Option<string>, sortByNewest: bool, commentsContinuation: Option<string>, mustSetCookie: bool)
    | XmlToVtt(xml: string)                                        // xml2vtt.Parse
    | Playlist(id: Option<string>, pages: int)                     // ytpl(id, { pages })
    | PlaylistMore(token: Value)                                   // ytpl.continueReq

  /**
    The behaviour of the outside world: every library call, the HTTPS fetch
    of the captions handler, and the two id validators.
  */
  datatype Services = Services(
    call: Call -> Attempt<Value>,
    httpsGet: string -> Attempt<string>,
    videoIdValid: string -> bool,
    playlistIdValid: Option<string> -> bool)
}
